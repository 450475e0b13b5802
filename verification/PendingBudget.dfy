/** The pending budget of one session and of the manager: what each admits, charges and takes back. */
module PendingBudget {
  import opened Bytes
  import opened Limits

  /** A session's pendingCost and pendingItems; `panicked` records an invalid release. */
  datatype Ledger = Ledger(cost: nat, items: nat, panicked: bool)

  const EMPTY_LEDGER := Ledger(0, 0, false)

  /** The manager's pendingBytes and pendingItems. */
  datatype Totals = Totals(bytes: int, items: int)

  /** The session's half of reservePendingLocked. */
  predicate SessionAdmits(l: Limits, g: Ledger, cost: nat, items: nat, class_: PendingClass) {
    var (costLimit, itemLimit) := SessionLimits(l, class_);
    0 < cost && g.cost + cost <= costLimit && g.items + items <= itemLimit
  }

  /** The manager's half: changePendingBudget with a non-negative charge. */
  predicate ManagerGrants(l: Limits, t: Totals, cost: nat, items: nat, class_: PendingClass) {
    var (byteLimit, itemLimit) := GlobalLimits(l, class_);
    cost + items > 0 ==> cost <= byteLimit - t.bytes && items <= itemLimit - t.items
  }

  function Charge(g: Ledger, cost: nat, items: nat): Ledger {
    g.(cost := g.cost + cost, items := g.items + items)
  }

  /** releasePendingLocked: an over-release panics. */
  function Discharge(g: Ledger, cost: nat, items: nat): Ledger {
    if cost == 0 && items == 0 then g
    else if cost > g.cost || items > g.items then g.(panicked := true)
    else g.(cost := g.cost - cost, items := g.items - items)
  }
}
