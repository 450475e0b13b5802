/** The WEB limits, their checked arithmetic, and the reserves carved out of the pending budgets. */
module Limits {
  import opened Bytes
  import opened FrameCodec
  import opened DownlinkLane

  const MAX_INT := 0x7FFF_FFFF_FFFF_FFFF
  const CONTROL_RESERVE_EXTRA_ITEMS := 16
  const CONTROL_RESERVE_ITEMS_PER_STREAM := 3
  const MAX_CARRIER_BATCH_BYTES := 2 * 1024 * 1024

  datatype Limits = Limits(
    carrierBatchBytes: nat,
    maxBodyBytes: nat,
    maxStreamsPerSession: nat,
    maxClosedStreamIDs: nat,
    maxPendingPerSession: nat,
    maxPendingGlobal: nat,
    maxPendingItemsPerSession: nat,
    maxPendingItemsGlobal: nat,
    maxSessions: nat,
    maxStreams: nat,
    maxBackendDialsInFlight: nat)

  datatype PendingClass = Uplink | Downlink | Control

  function CheckedAdd(left: nat, right: nat): (r: Option<nat>)
    ensures r.Some? <==> left + right <= MAX_INT
    ensures r.Some? ==> r.value == left + right
  {
    if left > MAX_INT - right then None else Some(left + right)
  }

  function CheckedMul(left: nat, right: nat): (r: Option<nat>)
    requires left <= MAX_INT
    ensures r.Some? <==> left * right <= MAX_INT
    ensures r.Some? ==> r.value == left * right
  {
    if left != 0 && right > MAX_INT / left then
      QuotientTooSmall(left, right);
      None
    else
      QuotientEnough(left, right);
      Some(left * right)
  }

  lemma {:induction false} QuotientTooSmall(left: nat, right: nat)
    requires left != 0 && right > MAX_INT / left
    ensures left * right > MAX_INT
  {
    var q := MAX_INT / left;
    assert MAX_INT == left * q + MAX_INT % left;
    assert left * right >= left * (q + 1) by {
      Monotone(left, q + 1, right);
    }
    assert left * (q + 1) == left * q + left;
  }

  lemma {:induction false} QuotientEnough(left: nat, right: nat)
    requires left == 0 || right <= MAX_INT / left
    ensures left * right <= MAX_INT
  {
    if left != 0 {
      var q := MAX_INT / left;
      assert MAX_INT == left * q + MAX_INT % left;
      Monotone(left, right, q);
    }
  }

  lemma {:induction false} Monotone(k: nat, a: nat, b: nat)
    requires a <= b
    ensures k * a <= k * b
  {
    assert k * b == k * a + k * (b - a);
  }

  /** pendingControlReserve without the overflow checks: cost and items. */
  function ControlReserve(l: Limits): (nat, nat) {
    var items := CONTROL_RESERVE_EXTRA_ITEMS + l.maxStreamsPerSession * CONTROL_RESERVE_ITEMS_PER_STREAM;
    (items * (QUEUE_ITEM_COST + FRAME_HEADER_SIZE + 4), items)
  }

  /** pendingControlReserve as computed in machine integers; None when a step overflows. */
  function CheckedControlReserve(l: Limits): Option<(nat, nat)>
    requires l.maxStreamsPerSession <= MAX_INT
  {
    match CheckedMul(l.maxStreamsPerSession, CONTROL_RESERVE_ITEMS_PER_STREAM)
    case None => None
    case Some(streamItems) =>
      match CheckedAdd(CONTROL_RESERVE_EXTRA_ITEMS, streamItems)
      case None => None
      case Some(items) =>
        match CheckedMul(items, QUEUE_ITEM_COST + FRAME_HEADER_SIZE + 4)
        case None => None
        case Some(cost) => Some((cost, items))
  }

  /** pendingUplinkReserve without the overflow check. */
  function UplinkReserve(l: Limits): (nat, nat) {
    var items := Min(l.maxBodyBytes / FRAME_HEADER_SIZE, MAX_BATCH_FRAMES);
    (l.maxBodyBytes + items * QUEUE_ITEM_COST, items)
  }

  /** The limits part of validateManagerConfig. */
  predicate ValidLimits(l: Limits) {
    && 0 < l.carrierBatchBytes <= MAX_INT && 0 < l.maxBodyBytes <= MAX_INT
    && 0 < l.maxStreamsPerSession <= MAX_INT && 0 < l.maxClosedStreamIDs <= MAX_INT
    && 0 < l.maxPendingPerSession && 0 < l.maxPendingGlobal <= MAX_INT
    && 0 < l.maxPendingItemsPerSession && 0 < l.maxPendingItemsGlobal <= MAX_INT
    && 0 < l.maxSessions <= MAX_INT && 0 < l.maxStreams && 0 < l.maxBackendDialsInFlight
    && l.carrierBatchBytes <= MAX_CARRIER_BATCH_BYTES && l.carrierBatchBytes <= l.maxBodyBytes
    && l.maxPendingPerSession <= l.maxPendingGlobal
    && l.maxPendingItemsPerSession <= l.maxPendingItemsGlobal
    && l.maxStreamsPerSession <= l.maxStreams && l.maxBackendDialsInFlight <= l.maxStreams
    && (var reserve := CheckedControlReserve(l);
        && reserve.Some?
        && var (cost, items) := reserve.value;
        && cost <= l.maxPendingPerSession && items <= l.maxPendingItemsPerSession
        && cost <= MAX_INT && items <= MAX_INT
        && (var (globalCost, globalItems) := (CheckedMul(cost, l.maxSessions), CheckedMul(items, l.maxSessions));
            && globalCost.Some? && globalItems.Some?
            && globalCost.value < l.maxPendingGlobal && globalItems.value < l.maxPendingItemsGlobal))
    && CheckedAdd(l.maxBodyBytes, UplinkReserve(l).1 * QUEUE_ITEM_COST).Some?
  }

  /** A configuration that passes validation reserves exactly the unchecked amounts, with room to spare. */
  lemma {:induction false} ValidatedReserves(l: Limits)
    requires ValidLimits(l)
    ensures CheckedControlReserve(l) == Some(ControlReserve(l))
    ensures ControlReserve(l).0 <= l.maxPendingPerSession && ControlReserve(l).1 <= l.maxPendingItemsPerSession
    ensures ControlReserve(l).0 * l.maxSessions < l.maxPendingGlobal
    ensures ControlReserve(l).1 * l.maxSessions < l.maxPendingItemsGlobal
  {}

  /** Session limits for one class of charge: cost and items. */
  function SessionLimits(l: Limits, class_: PendingClass): (nat, nat) {
    var uplink := (Max(0, l.maxPendingPerSession - ControlReserve(l).0),
                   Max(0, l.maxPendingItemsPerSession - ControlReserve(l).1));
    match class_
    case Control => (l.maxPendingPerSession, l.maxPendingItemsPerSession)
    case Uplink => uplink
    case Downlink => (Max(0, uplink.0 - UplinkReserve(l).0), Max(0, uplink.1 - UplinkReserve(l).1))
  }

  /** Manager limits for one class of charge: control charges may use the reserves of every session. */
  function GlobalLimits(l: Limits, class_: PendingClass): (int, int) {
    if class_ == Control then (l.maxPendingGlobal, l.maxPendingItemsGlobal)
    else (l.maxPendingGlobal - ControlReserve(l).0 * l.maxSessions,
          l.maxPendingItemsGlobal - ControlReserve(l).1 * l.maxSessions)
  }
}
