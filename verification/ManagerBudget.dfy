/**
 * The two-level pending budget over many sessions: each session's own totals and the process-wide
 * totals of the manager, charged together and released together, with room reserved for control frames.
 */
module ManagerBudget {
  import opened Bytes
  import opened Limits
  import opened Sums
  import opened PendingBudget

  /** One session as the manager sees it. `dataCost`/`dataItems` audit the part charged as non-control. */
  datatype Account = Account(ledger: Ledger, dataCost: nat, dataItems: nat, closed: bool)

  datatype System = System(limits: Limits, totals: Totals, accounts: map<nat, Account>, panicked: bool)

  datatype Op =
    | OpenSession(id: nat)
    | Reserve(id: nat, cost: nat, items: nat, class_: PendingClass)
    | Release(id: nat, cost: nat, items: nat, dataCost: nat, dataItems: nat)
    | CloseSession(id: nat)
    | FinishSession(id: nat)

  function Init(l: Limits): System {
    System(l, Totals(0, 0), map[], false)
  }

  /** changePendingBudget with a non-positive delta panics on a negative total. */
  function Return(s: System, cost: nat, items: nat): System {
    var t := Totals(s.totals.bytes - cost, s.totals.items - items);
    s.(totals := t, panicked := s.panicked || t.bytes < 0 || t.items < 0)
  }

  /** A release names how much of what it returns was charged as non-control; that split must exist. */
  predicate SplitFits(a: Account, op: Op)
    requires op.Release?
  {
    && op.cost <= a.ledger.cost && op.items <= a.ledger.items
    && op.dataCost <= op.cost && op.dataItems <= op.items
    && op.dataCost <= a.dataCost && op.dataItems <= a.dataItems
    && op.cost - op.dataCost <= a.ledger.cost - a.dataCost
    && op.items - op.dataItems <= a.ledger.items - a.dataItems
  }

  function Step(s: System, op: Op): System {
    match op
    case OpenSession(id) =>
      if id in s.accounts || |s.accounts| >= s.limits.maxSessions then s
      else s.(accounts := s.accounts[id := Account(EMPTY_LEDGER, 0, 0, false)])
    case Reserve(id, cost, items, class_) =>
      if id !in s.accounts || s.accounts[id].closed
         || !SessionAdmits(s.limits, s.accounts[id].ledger, cost, items, class_)
         || !ManagerGrants(s.limits, s.totals, cost, items, class_) then s
      else
        var a := s.accounts[id];
        var data := class_ != Control;
        s.(totals := Totals(s.totals.bytes + cost, s.totals.items + items),
           accounts := s.accounts[id := a.(ledger := Charge(a.ledger, cost, items),
                                           dataCost := a.dataCost + (if data then cost else 0),
                                           dataItems := a.dataItems + (if data then items else 0))])
    case Release(id, cost, items, dataCost, dataItems) =>
      if id !in s.accounts || s.accounts[id].closed || !SplitFits(s.accounts[id], op) then s
      else
        var a := s.accounts[id];
        Return(s, cost, items).(
          accounts := s.accounts[id := a.(ledger := Discharge(a.ledger, cost, items),
                                          dataCost := a.dataCost - dataCost,
                                          dataItems := a.dataItems - dataItems)])
    case CloseSession(id) =>
      if id !in s.accounts || s.accounts[id].closed then s
      else
        var a := s.accounts[id];
        Return(s, a.ledger.cost, a.ledger.items).(
          accounts := s.accounts[id := Account(EMPTY_LEDGER, 0, 0, true)])
    case FinishSession(id) =>
      if id !in s.accounts || !s.accounts[id].closed then s
      else s.(accounts := s.accounts - {id})
  }

  function Run(s: System, ops: seq<Op>): (r: System)
    ensures r.limits == s.limits
    decreases |ops|
  {
    if ops == [] then s else Run(Step(s, ops[0]), ops[1..])
  }

  /** Any release a session's own totals cover is such a step: some split of it always exists. */
  lemma {:induction false} EveryReleaseSplits(a: Account, id: nat, cost: nat, items: nat) returns (op: Op)
    requires a.dataCost <= a.ledger.cost && a.dataItems <= a.ledger.items
    requires cost <= a.ledger.cost && items <= a.ledger.items
    ensures op.Release? && op.id == id && op.cost == cost && op.items == items && SplitFits(a, op)
  {
    op := Release(id, cost, items, Max(0, cost - (a.ledger.cost - a.dataCost)),
                  Max(0, items - (a.ledger.items - a.dataItems)));
  }

  function CostHeld(a: Account): nat { a.ledger.cost }
  function ItemsHeld(a: Account): nat { a.ledger.items }
  function DataCostHeld(a: Account): nat { a.dataCost }
  function DataItemsHeld(a: Account): nat { a.dataItems }
  function ControlCostHeld(a: Account): nat { Max(0, a.ledger.cost - a.dataCost) }
  function ControlItemsHeld(a: Account): nat { Max(0, a.ledger.items - a.dataItems) }

  predicate AccountOK(l: Limits, a: Account) {
    && !a.ledger.panicked
    && a.dataCost <= a.ledger.cost <= l.maxPendingPerSession
    && a.dataItems <= a.ledger.items <= l.maxPendingItemsPerSession
    && a.dataCost <= SessionLimits(l, Uplink).0 && a.dataItems <= SessionLimits(l, Uplink).1
    && (a.closed ==> a.ledger == EMPTY_LEDGER)
  }

  /**
   * Conservation and separation: the manager's totals are the sums over its sessions, and the part
   * charged as non-control stays out of the reserve kept for control frames, at both levels.
   */
  ghost predicate Balanced(s: System) {
    && ValidLimits(s.limits)
    && !s.panicked
    && |s.accounts| <= s.limits.maxSessions
    && (forall id | id in s.accounts :: AccountOK(s.limits, s.accounts[id]))
    && s.totals.bytes == Sum(s.accounts, CostHeld) <= s.limits.maxPendingGlobal
    && s.totals.items == Sum(s.accounts, ItemsHeld) <= s.limits.maxPendingItemsGlobal
    && Sum(s.accounts, DataCostHeld) <= GlobalLimits(s.limits, Uplink).0
    && Sum(s.accounts, DataItemsHeld) <= GlobalLimits(s.limits, Uplink).1
  }

  /** All four sums of one account replacement. */
  lemma {:induction false} Replace(m: map<nat, Account>, id: nat, a: Account)
    ensures var n := m[id := a];
            var old_ := if id in m then m[id] else Account(EMPTY_LEDGER, 0, 0, false);
            && Sum(n, CostHeld) == Sum(m, CostHeld) - old_.ledger.cost + a.ledger.cost
            && Sum(n, ItemsHeld) == Sum(m, ItemsHeld) - old_.ledger.items + a.ledger.items
            && Sum(n, DataCostHeld) == Sum(m, DataCostHeld) - old_.dataCost + a.dataCost
            && Sum(n, DataItemsHeld) == Sum(m, DataItemsHeld) - old_.dataItems + a.dataItems
  {
    SumSet(m, id, a, CostHeld);
    SumSet(m, id, a, ItemsHeld);
    SumSet(m, id, a, DataCostHeld);
    SumSet(m, id, a, DataItemsHeld);
  }

  lemma {:induction false} DataWithinTotals(s: System)
    requires forall id | id in s.accounts :: AccountOK(s.limits, s.accounts[id])
    ensures Sum(s.accounts, DataCostHeld) <= Sum(s.accounts, CostHeld)
    ensures Sum(s.accounts, DataItemsHeld) <= Sum(s.accounts, ItemsHeld)
  {
    SumLessEqual(s.accounts, DataCostHeld, CostHeld);
    SumLessEqual(s.accounts, DataItemsHeld, ItemsHeld);
  }

  lemma {:induction false} LimitsNested(l: Limits, class_: PendingClass)
    requires ValidLimits(l)
    ensures SessionLimits(l, Downlink).0 <= SessionLimits(l, Uplink).0 <= l.maxPendingPerSession
    ensures SessionLimits(l, Downlink).1 <= SessionLimits(l, Uplink).1 <= l.maxPendingItemsPerSession
    ensures GlobalLimits(l, class_).0 <= l.maxPendingGlobal && GlobalLimits(l, class_).1 <= l.maxPendingItemsGlobal
    ensures class_ != Control ==> GlobalLimits(l, class_) == GlobalLimits(l, Uplink)
  {
    ValidatedReserves(l);
  }

  lemma {:induction false} ReserveKeepsBalance(s: System, id: nat, cost: nat, items: nat, class_: PendingClass)
    requires Balanced(s)
    ensures Balanced(Step(s, Reserve(id, cost, items, class_)))
  {
    var t := Step(s, Reserve(id, cost, items, class_));
    if t != s {
      Replace(s.accounts, id, t.accounts[id]);
      DataWithinTotals(s);
      LimitsNested(s.limits, class_);
    }
  }

  lemma {:induction false} ReleaseKeepsBalance(s: System, op: Op)
    requires Balanced(s) && op.Release?
    ensures Balanced(Step(s, op))
  {
    if op.id in s.accounts {
      Replace(s.accounts, op.id, Step(s, op).accounts[op.id]);
      SumAtLeast(s.accounts, op.id, CostHeld);
      SumAtLeast(s.accounts, op.id, ItemsHeld);
    }
  }

  lemma {:induction false} OpenKeepsBalance(s: System, id: nat)
    requires Balanced(s)
    ensures Balanced(Step(s, OpenSession(id)))
  {
    Replace(s.accounts, id, Account(EMPTY_LEDGER, 0, 0, false));
  }

  lemma {:induction false} CloseKeepsBalance(s: System, id: nat)
    requires Balanced(s)
    ensures Balanced(Step(s, CloseSession(id)))
  {
    if id in s.accounts {
      Replace(s.accounts, id, Account(EMPTY_LEDGER, 0, 0, true));
      SumAtLeast(s.accounts, id, CostHeld);
      SumAtLeast(s.accounts, id, ItemsHeld);
    }
  }

  lemma {:induction false} FinishKeepsBalance(s: System, id: nat)
    requires Balanced(s)
    ensures Balanced(Step(s, FinishSession(id)))
  {
    SumDrop(s.accounts, id, CostHeld);
    SumDrop(s.accounts, id, ItemsHeld);
    SumDrop(s.accounts, id, DataCostHeld);
    SumDrop(s.accounts, id, DataItemsHeld);
  }

  lemma {:induction false} StepKeepsBalance(s: System, op: Op)
    requires Balanced(s)
    ensures Balanced(Step(s, op))
  {
    match op
    case Reserve(id, cost, items, class_) => ReserveKeepsBalance(s, id, cost, items, class_);
    case Release(_, _, _, _, _) => ReleaseKeepsBalance(s, op);
    case OpenSession(id) => OpenKeepsBalance(s, id);
    case CloseSession(id) => CloseKeepsBalance(s, id);
    case FinishSession(id) => FinishKeepsBalance(s, id);
  }

  lemma {:induction false} KeepsBalance(s: System, ops: seq<Op>)
    requires Balanced(s)
    ensures Balanced(Run(s, ops))
    decreases |ops|
  {
    if ops != [] {
      StepKeepsBalance(s, ops[0]);
      var next := Step(s, ops[0]);
      KeepsBalance(next, ops[1..]);
    }
  }

  lemma {:induction false} InitBalanced(l: Limits)
    requires ValidLimits(l)
    ensures Balanced(Init(l))
  {
    ValidatedReserves(l);
    assert Sum(Init(l).accounts, CostHeld) == 0;
  }

  /** On every interleaving of any number of sessions the budget stays balanced and no accounting check panics. */
  lemma {:induction false} RunStaysBalanced(l: Limits, ops: seq<Op>)
    requires ValidLimits(l)
    ensures Balanced(Run(Init(l), ops))
  {
    hide Balanced;
    InitBalanced(l);
    KeepsBalance(Init(l), ops);
  }

  lemma {:induction false} SumSplits(m: map<nat, Account>)
    requires forall id | id in m :: m[id].dataCost <= m[id].ledger.cost && m[id].dataItems <= m[id].ledger.items
    ensures Sum(m, CostHeld) == Sum(m, DataCostHeld) + Sum(m, ControlCostHeld)
    ensures Sum(m, ItemsHeld) == Sum(m, DataItemsHeld) + Sum(m, ControlItemsHeld)
    decreases |m|
  {
    if m != map[] {
      var k :| k in m;
      SumRemove(m, k, CostHeld);
      SumRemove(m, k, DataCostHeld);
      SumRemove(m, k, ControlCostHeld);
      SumRemove(m, k, ItemsHeld);
      SumRemove(m, k, DataItemsHeld);
      SumRemove(m, k, ControlItemsHeld);
      SumSplits(m - {k});
    }
  }

  predicate WithinReserve(l: Limits, a: Account) {
    ControlCostHeld(a) <= ControlReserve(l).0 && ControlItemsHeld(a) <= ControlReserve(l).1
  }

  /** n sessions, one of them `held` below its reserve, hold at most n reserves together. */
  lemma {:induction false} OneBelowReserve(m: map<nat, Account>, id: nat, f: Account -> nat, reserve: nat, room: nat, sessions: nat)
    requires id in m && |m| <= sessions
    requires forall k | k in m :: f(m[k]) <= reserve
    requires f(m[id]) + room <= reserve
    ensures Sum(m, f) + room <= reserve * sessions
  {
    SumDrop(m, id, f);
    SumBound(m - {id}, f, reserve);
    assert |m - {id}| == |m| - 1;
    Monotone(reserve, |m| - 1, sessions - 1);
    assert reserve * (sessions - 1) == reserve * sessions - reserve;
  }

  /**
   * What the reserve is for: while every session's control charges, this one included, fit the
   * per-session reserve, a control charge is granted whatever the data traffic of all sessions.
   */
  lemma {:induction false} ControlAlwaysAdmitted(s: System, id: nat, cost: nat, items: nat)
    requires Balanced(s) && id in s.accounts && !s.accounts[id].closed && 0 < cost
    requires forall k | k in s.accounts :: WithinReserve(s.limits, s.accounts[k])
    requires ControlCostHeld(s.accounts[id]) + cost <= ControlReserve(s.limits).0
    requires ControlItemsHeld(s.accounts[id]) + items <= ControlReserve(s.limits).1
    ensures SessionAdmits(s.limits, s.accounts[id].ledger, cost, items, Control)
    ensures ManagerGrants(s.limits, s.totals, cost, items, Control)
  {
    var (reserveCost, reserveItems) := ControlReserve(s.limits);
    ValidatedReserves(s.limits);
    SumSplits(s.accounts);
    OneBelowReserve(s.accounts, id, ControlCostHeld, reserveCost, cost, s.limits.maxSessions);
    OneBelowReserve(s.accounts, id, ControlItemsHeld, reserveItems, items, s.limits.maxSessions);
    assert AccountOK(s.limits, s.accounts[id]);
  }

  /** The class's share of both levels has room for the charge beside everything that is held. */
  ghost predicate HasRoom(s: System, id: nat, cost: nat, items: nat, class_: PendingClass)
    requires id in s.accounts
  {
    && s.accounts[id].ledger.cost + cost <= SessionLimits(s.limits, class_).0
    && s.accounts[id].ledger.items + items <= SessionLimits(s.limits, class_).1
    && Sum(s.accounts, CostHeld) + cost <= GlobalLimits(s.limits, class_).0
    && Sum(s.accounts, ItemsHeld) + items <= GlobalLimits(s.limits, class_).1
  }

  /** A charge is granted exactly when it has room, and then to that session alone. */
  lemma {:induction false} GrantedExactly(s: System, id: nat, cost: nat, items: nat, class_: PendingClass)
    requires Balanced(s) && id in s.accounts && !s.accounts[id].closed && 0 < cost
    ensures var (a, data) := (s.accounts[id], class_ != Control);
            Step(s, Reserve(id, cost, items, class_)).accounts ==
            if HasRoom(s, id, cost, items, class_) then
              s.accounts[id := Account(Ledger(a.ledger.cost + cost, a.ledger.items + items, false),
                                       a.dataCost + (if data then cost else 0), a.dataItems + (if data then items else 0), false)]
            else s.accounts
  {
    LimitsNested(s.limits, class_);
    assert AccountOK(s.limits, s.accounts[id]);
    hide Sum;
  }

  /** A release, a close and the end of a session return exactly what they say, and touch no other session. */
  lemma {:induction false} ReturnedExactly(s: System, op: Op)
    requires Balanced(s) && op.id in s.accounts
    ensures op.Release? && !s.accounts[op.id].closed && SplitFits(s.accounts[op.id], op) ==>
              var a := s.accounts[op.id];
              Step(s, op).accounts ==
              s.accounts[op.id := Account(Ledger(a.ledger.cost - op.cost, a.ledger.items - op.items, false),
                                          a.dataCost - op.dataCost, a.dataItems - op.dataItems, false)]
    ensures op.CloseSession? ==> Step(s, op).accounts == s.accounts[op.id := Account(EMPTY_LEDGER, 0, 0, true)]
    ensures op.FinishSession? ==>
              Step(s, op).accounts == if s.accounts[op.id].closed then s.accounts - {op.id} else s.accounts
  {
    assert AccountOK(s.limits, s.accounts[op.id]);
    hide Sum;
  }
}
