/**
 * The session as an object: its methods update its fields, its identifier bitmap and its ring of closed streams and
 * loop as the relay does; each refines SessionCore, and each critical section keeps the whole of SessionRuns.Sound.
 */
module SessionEngine {
  import opened Bytes
  import opened FrameCodec
  import opened DownlinkLane
  import opened Limits
  import opened PendingBudget
  import Core = SessionCore
  import Accounting = SessionAccounting
  import Runs = SessionRuns
  import History = StreamHistory
  import Closed = ClosedStreams
  import opened LaneQueue

  type Stream = Core.Stream
  type CarrierLane = Core.CarrierLane

  class Session {
    const limits: Limits
    const carrier: Core.Carrier
    const env: nat -> bool // the manager's answers, in the order they are asked for
    var streams: map<StreamID, Stream>
    const used: History.History
    const tombstones: Closed.BoundedSet
    var lanes: map<nat, CarrierLane>
    var nextSerial: nat
    var ledger: Ledger
    var inputs: map<nat, nat>
    var closed: bool
    var broken: bool
    var asked: nat
    var openLog: seq<nat>

    ghost function View(): Core.Session
      reads this, used, tombstones
    {
      Core.Session(limits, carrier, streams, used.ids, tombstones.View(), lanes, nextSerial, ledger, inputs, closed, broken,
                   env, asked, openLog)
    }

    ghost predicate Valid()
      reads this, used, used.chunks, tombstones
    {
      used.Valid() && tombstones.Valid()
    }

    constructor (limits: Limits, carrier: Core.Carrier, env: nat -> bool)
      requires 0 < limits.maxClosedStreamIDs
      ensures Valid() && fresh(used) && fresh(used.chunks) && fresh(tombstones)
      ensures View() == Core.NewSession(limits, carrier, env) && Runs.Sound(View())
    {
      this.limits, this.carrier, this.env := limits, carrier, env;
      streams := map[];
      used := new History.History();
      tombstones := new Closed.BoundedSet(limits.maxClosedStreamIDs);
      lanes := if carrier == Core.WebSocketLanes then map[] else map[0 := Core.NewLane(0)];
      nextSerial, ledger, inputs, closed, broken, asked, openLog := 1, EMPTY_LEDGER, map[], false, false, 0, [];
      new;
      Runs.StartIsSound(limits, carrier, env);
      hide Runs.Sound;
    }

    // -------------------------------------------------------------- budget

    method ReservePending(cost: nat, items: nat, class_: PendingClass) returns (ok: bool)
      requires Valid()
      modifies this
      ensures Valid()
      ensures (View(), ok) == Core.ReservePending(old(View()), cost, items, class_)
    {
      hide SessionLimits;
      if cost == 0 && items == 0 {
        return true;
      }
      var (costLimit, itemLimit) := SessionLimits(limits, class_);
      if cost <= 0 || cost > costLimit || items > itemLimit || ledger.cost > costLimit - cost || ledger.items > itemLimit - items {
        return false;
      }
      asked := asked + 1;
      if !env(asked - 1) {
        return false;
      }
      ledger := ledger.(cost := ledger.cost + cost, items := ledger.items + items);
      return true;
    }

    method ReleasePending(cost: int, items: int)
      requires Valid()
      modifies this
      ensures Valid()
      ensures View() == Core.ReleasePending(old(View()), cost, items)
    {
      if cost == 0 && items == 0 {
        return;
      }
      if cost < 0 || items < 0 {
        broken := true;
      } else if cost > ledger.cost || items > ledger.items {
        ledger := ledger.(panicked := true);
      } else {
        ledger := ledger.(cost := ledger.cost - cost, items := ledger.items - items);
      }
    }

    // -------------------------------------------------------------- downlink queue

    function LaneOf(id: nat): nat
    {
      if Core.UsesLanes(carrier) then id else 0
    }

    method QueueFrame(kind: byte, id: StreamID, payload: bytes) returns (ok: bool)
      requires Queueable(kind, id, payload)
      requires Valid()
      modifies this
      ensures Valid()
      ensures (View(), ok) == Core.QueueFrame(old(View()), kind, id, payload)
    {
      hide PlanFrame, LaneOK, Enqueued, Core.ReservePending, Queueable;
      var laneID := LaneOf(id);
      if laneID !in lanes {
        return false;
      }
      var down := lanes[laneID].down;
      var plan := PlanFrame(down, kind, id, payload);
      ok := ReservePending(PlanCost(plan, payload), PlanItems(plan), if kind == DATA then Downlink else Control);
      KeepsLanes(old(View()), PlanCost(plan, payload), PlanItems(plan), if kind == DATA then Downlink else Control);
      if !ok {
        return;
      }
      var stored := StoreFrame(down, kind, id, payload, plan);
      lanes := lanes[laneID := lanes[laneID].(down := stored)];
    }

    method DropPendingStreamFrames(id: nat)
      requires Valid()
      modifies this
      ensures Valid()
      ensures View() == Core.DropFrames(old(View()), id)
    {
      hide LaneOK, Dropped;
      var laneID := LaneOf(id);
      if laneID !in lanes {
        return;
      }
      var rest, cost, items := DropPendingFrames(lanes[laneID].down, id);
      lanes := lanes[laneID := lanes[laneID].(down := rest)];
      ReleasePending(cost, items);
    }

    method ReleaseCarrierLane(laneID: nat)
      requires Valid()
      modifies this
      ensures Valid()
      ensures View() == Core.ReleaseLane(old(View()), laneID)
    {
      hide LaneOK;
      if laneID == 0 || laneID !in lanes {
        return;
      }
      var down := lanes[laneID].down;
      lanes := lanes - {laneID};
      var cost, items := down.unackedCost, down.unackedItems;
      assert down.pending[..0] == [];
      for index := 0 to |down.pending|
        invariant View() == old(View()).(lanes := old(lanes) - {laneID})
        invariant cost == down.unackedCost + CostOf(down.pending[..index]) && items == down.unackedItems + index
      {
        EncodingsSnoc(down.pending, index);
        cost, items := cost + down.pending[index].cost, items + 1;
      }
      assert down.pending[..|down.pending|] == down.pending;
      ReleasePending(cost, items);
    }

    method RememberClosed(id: nat)
      requires Valid()
      modifies this, tombstones
      ensures Valid()
      ensures View() == Core.RememberClosed(old(View()), id)
    {
      hide Core.Remember, Core.ReleaseLane;
      var evicted := tombstones.Add(id);
      if Core.UsesLanes(carrier) && evicted.Some? {
        ReleaseCarrierLane(evicted.value);
      }
    }

    method DeleteStream(id: nat)
      requires id in streams
      requires Valid()
      modifies this
      ensures Valid()
      ensures View() == Core.DeleteStream(old(View()), id)
    {
      var state := streams[id];
      streams := streams - {id};
      ReleasePending(state.pendingWriteCost, state.pendingWriteItems);
    }

    method Close()
      requires Valid()
      modifies this
      ensures Valid() && (Runs.Sound(old(View())) ==> Runs.Sound(View()))
      ensures View() == Core.Close(old(View()))
    {
      hide Runs.Sound, History.History.Valid, Closed.BoundedSet.Valid;
      if Runs.Sound(View()) {
        Runs.StepIsSound(View(), Core.CloseNow);
      }
      if closed {
        return;
      }
      closed := true;
      streams, lanes := map[], map[];
      ledger := ledger.(cost := 0, items := 0);
    }

    // -------------------------------------------------------------- uplink batches

    /** validateBatchLocked: simulate the windows and identities of the batch, frame by frame. */
    method ValidateBatch(frames: seq<Frame>) returns (valid: bool)
      requires Valid() && forall i | 0 <= i < |frames| :: frames[i].streamID <= MAX_STREAM_ID
      ensures valid == Core.ValidBatch(View(), frames)
    {
      hide LaneOK;
      var live := map id | id in streams :: Core.Window(streams[id].receiveWindow, streams[id].sendCredit);
      var usedInBatch: set<nat> := {};
      assert Core.Check(live, usedInBatch) == Core.Snapshot(View());
      for index := 0 to |frames|
        invariant Core.ValidBatch(View(), frames) == Core.CheckBatch(used.ids, Core.Check(live, usedInBatch), frames[index..]).Some?
      {
        var frame := frames[index];
        var id := frame.streamID;
        assert frames[index..][0] == frame && frames[index..][1..] == frames[index + 1..];
        if id == 0 {
          if frame.kind != PONG {
            return false;
          }
          continue;
        }
        var isLive := id in live;
        var wasUsed := used.Contains(id);
        wasUsed := wasUsed || id in usedInBatch;
        if frame.kind == OPEN {
          if isLive || wasUsed {
            return false;
          }
          usedInBatch := usedInBatch + {id};
          live := live[id := Core.Window(INITIAL_STREAM_WINDOW, INITIAL_STREAM_WINDOW)];
        } else if frame.kind !in {DATA, WINDOW, CLOSE} {
          return false;
        } else if !isLive {
          if !wasUsed {
            return false;
          }
        } else if frame.kind == DATA {
          if |frame.payload| > live[id].receive {
            return false;
          }
          live := live[id := live[id].(receive := live[id].receive - |frame.payload|)];
        } else if frame.kind == WINDOW {
          live := live[id := live[id].(send := Min(MAX_UINT32, live[id].send + DeltaOf(frame.payload)))];
        } else {
          live := live - {id};
        }
      }
      return true;
    }

    /** backendWriteReservationLocked: the charge of every DATA frame of a stream live at that point of the batch. */
    method BackendWriteReservation(frames: seq<Frame>) returns (cost: nat, items: nat)
      ensures (cost, items) == Core.Advance(streams.Keys, frames)
    {
      var live: set<nat> := set id | id in streams;
      assert live == streams.Keys;
      cost, items := 0, 0;
      for index := 0 to |frames|
        invariant Core.Advance(streams.Keys, frames) ==
                  (cost + Core.Advance(live, frames[index..]).0, items + Core.Advance(live, frames[index..]).1)
      {
        var frame := frames[index];
        assert frames[index..][0] == frame && frames[index..][1..] == frames[index + 1..];
        if frame.streamID == 0 {
        } else if frame.kind == OPEN {
          live := live + {frame.streamID};
        } else if frame.kind == DATA && frame.streamID in live {
          cost, items := cost + |frame.payload| + QUEUE_ITEM_COST, items + 1;
        } else if frame.kind == CLOSE {
          live := live - {frame.streamID};
        }
      }
    }

    /** appendBackendWriteLocked on a live stream, with the window and audit of applyBatchLocked's DATA case. */
    method AppendBackendWrite(id: nat, payload: bytes) returns (cost: nat, items: nat)
      requires id in streams
      requires Valid()
      modifies this
      ensures Valid()
      ensures var state := old(streams[id]);
              && cost == Core.WriteCost(state, payload) && items == Core.WriteItems(state, payload)
              && View() == old(View()).(streams := old(streams)[id := Core.AppendWrite(state, payload)],
                                        broken := old(broken) || |payload| > state.receiveWindow)
    {
      var state := streams[id];
      var last := |state.writes| - 1;
      var writes := state.writes;
      if last >= 0 && |writes[last]| + |payload| <= RELAY_DATA_CHUNK {
        cost, items := |payload|, 0;
        writes := writes[last := writes[last] + payload];
      } else {
        cost, items := |payload| + QUEUE_ITEM_COST, 1;
        writes := writes + [payload];
      }
      if |payload| > state.receiveWindow {
        broken := true;
      }
      streams := streams[id := state.(writes := writes,
                                      pendingWriteBytes := state.pendingWriteBytes + |payload|,
                                      pendingWriteCost := state.pendingWriteCost + cost,
                                      pendingWriteItems := state.pendingWriteItems + items,
                                      receiveWindow := (state.receiveWindow - |payload|) % 0x1_0000_0000,
                                      accepted := state.accepted + payload)];
    }

    /** The OPEN case of applyBatchLocked. */
    method ApplyOpen(id: StreamID) returns (ok: bool)
      requires Valid()
      modifies this, used, used.chunks, tombstones
      ensures Valid()
      ensures (View(), ok) == Core.ApplyOpen(old(View()), id)
    {
      hide LaneOK, Core.RememberClosed, Core.QueueFrame, History.History.Valid, Closed.BoundedSet.Valid, Queueable;
      assert Queueable(CLOSE, id, []) by { CloseIsQueueable(id); }
      var _ := used.Add(id);
      var granted := false;
      if |streams| < limits.maxStreamsPerSession {
        granted := env(asked);
        asked := asked + 1;
      }
      if !granted {
        RememberClosed(id);
        ok := QueueFrame(CLOSE, id, []);
        return;
      }
      streams := streams[id := Core.NEW_STREAM];
      openLog := openLog + [id];
      return true;
    }

    /** The CLOSE case of applyBatchLocked. */
    method ApplyClose(id: nat)
      requires id in streams
      requires Valid()
      modifies this, tombstones
      ensures Valid()
      ensures View() == Core.ApplyClose(old(View()), id)
    {
      hide Core.DropFrames, Core.DeleteStream, Core.RememberClosed;
      KeepsStreams(View(), id);
      DropPendingStreamFrames(id);
      DeleteStream(id);
      RememberClosed(id);
    }

    /** applyBatchLocked; `taken` counts the frames it got through. */
    /** The body of applyBatchLocked's loop. */
    method ApplyFrame(frame: Frame, reservedCost: int, reservedItems: int)
      returns (unusedCost: int, unusedItems: int, applied: bool)
      requires Valid()
      modifies this, used, used.chunks, tombstones
      ensures Valid()
      ensures Core.Applied(View(), unusedCost, unusedItems, applied) ==
              Core.ApplyFrame(Core.Applied(old(View()), reservedCost, reservedItems, true), frame)
    {
      hide LaneOK, Core.ApplyOpen, Core.ApplyClose, Core.AppendWrite, Core.WriteCost, Core.WriteItems,
           History.History.Valid, Closed.BoundedSet.Valid;
      unusedCost, unusedItems, applied := reservedCost, reservedItems, true;
      var id := frame.streamID;
      if id == 0 || id > MAX_STREAM_ID {
        return;
      }
      if frame.kind == OPEN {
        applied := ApplyOpen(id);
      } else if frame.kind !in {DATA, WINDOW, CLOSE} {
        return;
      } else if id !in streams {
        var wasUsed := used.Contains(id);
        if !wasUsed {
          broken := true;
        }
      } else if frame.kind == DATA {
        var cost, items := AppendBackendWrite(id, frame.payload);
        unusedCost, unusedItems := unusedCost - cost, unusedItems - items;
      } else if frame.kind == WINDOW {
        var state, delta := streams[id], DeltaOf(frame.payload);
        streams := streams[id := state.(sendCredit := Min(MAX_UINT32, state.sendCredit + delta),
                                        credits := state.credits + [Core.Grant(delta)])];
      } else {
        ApplyClose(id);
      }
    }

    method ApplyBatch(frames: seq<Frame>, reservedCost: int, reservedItems: int)
      returns (unusedCost: int, unusedItems: int, applied: bool, taken: nat)
      requires Valid()
      modifies this, used, used.chunks, tombstones
      ensures Valid()
      ensures Core.Applied(View(), unusedCost, unusedItems, applied) ==
              Core.ApplyBatch(Core.Applied(old(View()), reservedCost, reservedItems, true), frames)
      ensures taken == Core.Taken(Core.Applied(old(View()), reservedCost, reservedItems, true), frames)
    {
      hide LaneOK, Core.ApplyFrame, History.History.Valid, Closed.BoundedSet.Valid;
      unusedCost, unusedItems, applied, taken := reservedCost, reservedItems, true, |frames|;
      ghost var all := Core.Taken(Core.Applied(View(), reservedCost, reservedItems, true), frames);
      ghost var whole := Core.ApplyBatch(Core.Applied(View(), reservedCost, reservedItems, true), frames);
      for index := 0 to |frames|
        invariant Valid()
        invariant whole == Core.ApplyBatch(Core.Applied(View(), unusedCost, unusedItems, true), frames[index..])
        invariant all == index + Core.Taken(Core.Applied(View(), unusedCost, unusedItems, true), frames[index..])
      {
        assert frames[index..][0] == frames[index] && frames[index..][1..] == frames[index + 1..];
        unusedCost, unusedItems, applied := ApplyFrame(frames[index], unusedCost, unusedItems);
        if !applied {
          taken := index;
          return;
        }
      }
    }

    // -------------------------------------------------------------- lanes

    method Attach(laneID: nat)
      requires Valid()
      modifies this
      ensures Valid()
      ensures View() == Core.Attach(old(View()), laneID)
    {
      if laneID !in lanes {
        lanes := lanes[laneID := Core.NewLane(nextSerial)];
        nextSerial := nextSerial + 1;
      }
    }

    method ReleaseWebSocketLane(laneID: nat, expected: Option<nat>)
      requires Valid()
      modifies this, tombstones
      ensures Valid() && (Runs.Sound(old(View())) ==> Runs.Sound(View()))
      ensures View() == Core.ReleaseWebSocketLane(old(View()), laneID, expected)
    {
      hide LaneOK, Core.RememberClosed, Core.DeleteStream, Core.ReleaseLane, Runs.Sound, History.History.Valid, Closed.BoundedSet.Valid;
      if Runs.Sound(View()) {
        Runs.StepIsSound(View(), Core.DetachLane(laneID, expected));
      }
      if carrier != Core.WebSocketLanes || expected.None? || laneID !in lanes || lanes[laneID].serial != expected.value {
        return;
      }
      lanes := lanes[laneID := lanes[laneID].(websocketActive := false)];
      if laneID in streams {
        DeleteStream(laneID);
        RememberClosed(laneID);
      }
      ReleaseCarrierLane(laneID);
    }

    method LaneProtocolFailure(laneID: nat, expected: Option<nat>)
      requires Valid()
      modifies this, tombstones
      ensures Valid() && (Runs.Sound(old(View())) && laneID == LaneOf(laneID) ==> Runs.Sound(View()))
      ensures View() == Core.FailLane(old(View()), laneID, expected)
    {
      hide Core.ReleaseWebSocketLane, Core.Close, Runs.Sound;
      if Runs.Sound(View()) && laneID == LaneOf(laneID) {
        Runs.StepIsSound(View(), Core.Fail(laneID, expected));
      }
      if carrier != Core.WebSocketLanes {
        Close();
      } else {
        ReleaseWebSocketLane(laneID, expected);
      }
    }

    method AcquireWebSocketLane(laneID: nat)
      requires Valid() && Runs.Sound(View())
      modifies this
      ensures Valid() && Runs.Sound(View())
      ensures View() == Core.AcquireLane(old(View()), laneID)
    {
      hide LaneOK, Runs.Sound, History.History.Valid;
      Runs.StepIsSound(View(), Core.AttachLane(laneID));
      if closed || carrier != Core.WebSocketLanes || laneID == 0 || laneID > MAX_STREAM_ID {
        return;
      }
      var wasUsed := used.Contains(laneID);
      if wasUsed || (laneID !in lanes && |lanes| >= limits.maxStreamsPerSession) {
        return;
      }
      Attach(laneID);
      if !lanes[laneID].websocketActive {
        lanes := lanes[laneID := lanes[laneID].(websocketActive := true)];
      }
    }

    // -------------------------------------------------------------- one uplink request

    /** onlyLateLaneFrames. */
    method OnlyLateFrames(frames: seq<Frame>) returns (late: bool)
      ensures late == Core.OnlyLateFrames(frames)
    {
      if frames == [] {
        return false;
      }
      for index := 0 to |frames|
        invariant forall i | 0 <= i < index :: frames[i].kind in {DATA, WINDOW, CLOSE}
      {
        if frames[index].kind !in {DATA, WINDOW, CLOSE} {
          return false;
        }
      }
      return true;
    }

    /** parseUplinkBatch. */
    method ParseUplinkBatch(body: bytes, laneID: nat) returns (parsed: Result<seq<Frame>>)
      ensures parsed == Core.ParseUplink(body, laneID, Core.UsesLanes(carrier))
    {
      hide Parse;
      parsed := ParseBatch(body);
      if parsed.Err? {
        return;
      }
      var frames := parsed.value;
      for index := 0 to |frames|
        invariant forall i | 0 <= i < index ::
                    && (Core.UsesLanes(carrier) ==> frames[i].streamID == laneID)
                    && frames[i].kind != HELLO && ValidIn(frames[i], ClientToRelay)
      {
        var frame := frames[index];
        if (Core.UsesLanes(carrier) && frame.streamID != laneID) || frame.kind == HELLO || !ValidIn(frame, ClientToRelay) {
          return Err(InvalidFrame);
        }
      }
    }

    /** processUp's first critical section. */
    method ProcessUpBegin(laneID: nat, sequence: nat, body: bytes, expected: Option<nat>) returns (r: Core.UpResult)
      requires Valid() && Runs.Sound(View()) && laneID == LaneOf(laneID)
      modifies this, tombstones
      ensures Valid() && Runs.Sound(View())
      ensures (View(), r) == Core.UpBegin(old(View()), laneID, sequence, body, expected)
    {
      hide LaneOK, Core.FailLane, Core.ParseUplink, Core.OnlyLateFrames, Core.StartsWithOpen, Runs.Sound, History.History.Valid, Closed.BoundedSet.Valid;
      Runs.StepIsSound(View(), Core.UpStart(laneID, sequence, body, expected));
      var known := laneID in lanes;
      if closed || (expected.Some? && !(known && lanes[laneID].serial == expected.value)) {
        return Core.UpClosed;
      }
      if sequence == 0 || |body| > limits.maxBodyBytes {
        LaneProtocolFailure(laneID, expected);
        return Core.UpProtocol(false);
      }
      if !known && (!Core.UsesLanes(carrier) || laneID == 0 || !Core.StartsWithOpen(body, laneID)) {
        var parsed := ParseUplinkBatch(body, laneID);
        if Core.UsesLanes(carrier) && parsed.Ok? {
          var late := OnlyLateFrames(parsed.value);
          if late {
            return Core.Acknowledged(sequence);
          }
        }
        return Core.UpProtocol(true);
      }
      Attach(laneID);
      var lane := lanes[laneID];
      if sequence == lane.lastUpSequence {
        return if body == lane.lastUpBody then Core.Acknowledged(sequence) else Core.UpProtocol(true);
      }
      if sequence != lane.lastUpSequence + 1 {
        LaneProtocolFailure(laneID, expected);
        return Core.UpProtocol(false);
      }
      if lane.upActive.Some? {
        return Core.UpBackpressure;
      }
      lanes := lanes[laneID := lane.(upActive := Some(Core.UpJob(sequence, body)))];
      return Core.Proceed(lane.serial);
    }

    /** processUp's second critical section, once the body has parsed and the claim has been dropped. */
    method ApplyUplink(laneID: nat, job: Core.UpJob, frames: seq<Frame>, expected: Option<nat>) returns (r: Core.UpResult)
      requires laneID in lanes && forall i | 0 <= i < |frames| :: frames[i].streamID <= MAX_STREAM_ID
      requires Valid()
      modifies this, used, used.chunks, tombstones
      ensures Valid()
      ensures (View(), r) == Core.UpApply(old(View()), laneID, job, frames, expected)
    {
      hide LaneOK, Core.FailLane, Core.ReservePending, Core.ApplyBatch, Core.Advance, Core.ValidBatch, Core.Taken;
      var valid := ValidateBatch(frames);
      if !valid {
        LaneProtocolFailure(laneID, expected);
        return Core.UpProtocol(false);
      }
      var cost, items := BackendWriteReservation(frames);
      KeepsLanes(View(), cost, items, Uplink);
      var ok := ReservePending(cost, items, Uplink);
      if !ok {
        return Core.UpBackpressure;
      }
      var unusedCost, unusedItems, applied, taken := ApplyBatch(frames, cost, items);
      ReleasePending(unusedCost, unusedItems);
      if laneID in lanes {
        var lane := lanes[laneID];
        lane := lane.(upTried := lane.upTried + [Core.Attempt(job, frames[..taken], applied)],
                      upFrames := lane.upFrames + frames[..taken]);
        if applied {
          lane := lane.(lastUpSequence := job.sequence, lastUpBody := job.body, upBodies := lane.upBodies + [job.body]);
        }
        lanes := lanes[laneID := lane];
      }
      return if applied then Core.Acknowledged(job.sequence) else Core.UpUnfinished;
    }

    /** processUp's second critical section. */
    method ProcessUpEnd(laneID: nat, serial: nat, expected: Option<nat>) returns (r: Core.UpResult)
      requires Valid() && Runs.Sound(View()) && laneID == LaneOf(laneID)
      modifies this, used, used.chunks, tombstones
      ensures Valid() && Runs.Sound(View())
      ensures (View(), r) == Core.UpEnd(old(View()), laneID, serial, expected)
    {
      hide LaneOK, Core.FailLane, Core.ParseUplink, Core.UpApply, Runs.Sound;
      Runs.StepIsSound(View(), Core.UpFinish(laneID, serial, expected));
      if laneID !in lanes || lanes[laneID].serial != serial || lanes[laneID].upActive.None? {
        return Core.UpClosed;
      }
      var job := lanes[laneID].upActive.value;
      lanes := lanes[laneID := lanes[laneID].(upActive := None)];
      if closed {
        return Core.UpClosed;
      }
      var parsed := ParseUplinkBatch(job.body, laneID);
      if parsed.Err? {
        LaneProtocolFailure(laneID, expected);
        return Core.UpProtocol(false);
      }
      Accounting.ParsedIdentifiers(job.body, laneID, Core.UsesLanes(carrier));
      r := ApplyUplink(laneID, job, parsed.value, expected);
    }

    // -------------------------------------------------------------- backend goroutines

    method NextWrite(id: nat) returns (buffer: Option<bytes>)
      requires Valid() && Runs.Sound(View())
      modifies this
      ensures Valid() && Runs.Sound(View())
      ensures View() == Core.NextWrite(old(View()), id)
      ensures buffer == if View() == old(View()) then None else Some(old(streams)[id].writes[0])
    {
      hide Runs.Sound;
      Runs.StepIsSound(View(), Core.TakeWrite(id));
      if closed || id !in streams || streams[id].writes == [] || streams[id].inFlight.Some? {
        return None;
      }
      var state := streams[id];
      buffer := Some(state.writes[0]);
      streams := streams[id := state.(writes := state.writes[1..], inFlight := buffer)];
      assert View().streams[id].inFlight != old(View()).streams[id].inFlight;
    }

    method BackendDrained(id: nat, amount: nat) returns (ok: bool)
      requires Valid() && Runs.Sound(View())
      modifies this
      ensures Valid() && Runs.Sound(View())
      ensures (View(), ok) == Core.BackendDrained(old(View()), id, amount)
    {
      hide LaneOK, Core.QueueFrame, Runs.Sound, History.History.Valid, Closed.BoundedSet.Valid;
      Runs.StepIsSound(View(), Core.Drained(id, amount));
      if closed || id !in streams || !Core.CanDrain(streams[id], amount) {
        return false;
      }
      var state := streams[id];
      state := state.(pendingWriteBytes := state.pendingWriteBytes - amount,
                      pendingWriteCost := state.pendingWriteCost - amount,
                      receiveWindow := state.receiveWindow + amount,
                      inFlight := Some(state.inFlight.value[amount..]),
                      written := state.written + state.inFlight.value[..amount]);
      streams := streams[id := state];
      ReleasePending(amount, 0);
      ok := QueueFrame(WINDOW, id, WindowPayload(amount).value);
      if !ok {
        streams := streams[id := state.(unreported := state.unreported + amount, halted := true)];
      }
    }

    method BackendWriteFinished(id: nat) returns (ok: bool)
      requires Valid() && Runs.Sound(View())
      modifies this
      ensures Valid() && Runs.Sound(View())
      ensures (View(), ok) == Core.BackendWriteFinished(old(View()), id)
    {
      hide Runs.Sound;
      Runs.StepIsSound(View(), Core.WriteDone(id));
      if closed || id !in streams || streams[id].pendingWriteItems == 0 || streams[id].pendingWriteCost < QUEUE_ITEM_COST
         || streams[id].inFlight != Some([]) || streams[id].halted {
        return false;
      }
      var state := streams[id];
      streams := streams[id := state.(pendingWriteItems := state.pendingWriteItems - 1,
                                      pendingWriteCost := state.pendingWriteCost - QUEUE_ITEM_COST,
                                      inFlight := None)];
      ReleasePending(QUEUE_ITEM_COST, 1);
      return true;
    }

    method BackendData(id: nat, data: bytes) returns (ok: bool)
      requires |data| <= RELAY_DATA_CHUNK
      requires Valid() && Runs.Sound(View())
      modifies this
      ensures Valid() && Runs.Sound(View())
      ensures (View(), ok) == Core.BackendData(old(View()), id, data)
    {
      hide LaneOK, Core.QueueFrame, Runs.Sound;
      Runs.StepIsSound(View(), Core.FromBackend(id, data));
      if closed || id !in streams || |data| == 0 || |data| > streams[id].sendCredit {
        return false;
      }
      var paid := streams[id].(sendCredit := streams[id].sendCredit - |data|, credits := streams[id].credits + [Core.Spend(|data|)]);
      streams := streams[id := paid];
      ok := QueueFrame(DATA, id, data);
      streams := streams[id := if ok then paid.(offered := paid.offered + data) else paid.(refused := paid.refused + |data|)];
    }

    method BackendClosed(id: nat)
      requires Valid() && Runs.Sound(View())
      modifies this, tombstones
      ensures Valid() && Runs.Sound(View())
      ensures View() == Core.BackendClosed(old(View()), id)
    {
      hide LaneOK, Core.DropFrames, Core.DeleteStream, Core.RememberClosed, Core.QueueFrame, Core.Close, Runs.Sound;
      Runs.StepIsSound(View(), Core.BackendEnded(id));
      if closed || id !in streams {
        return;
      }
      KeepsStreams(View(), id);
      DropPendingStreamFrames(id);
      DeleteStream(id);
      RememberClosed(id);
      var ok := QueueFrame(CLOSE, id, []);
      if !ok {
        Close();
      }
    }

    // -------------------------------------------------------------- polls and reservations

    /** pollCarrier's critical section for the request that holds the lane's slot. */
    method PollLane(laneID: nat, serial: nat, cursor: nat, expected: Option<nat>) returns (served: Option<Served>)
      requires Valid() && Runs.Sound(View()) && laneID == LaneOf(laneID)
      modifies this, tombstones
      ensures Valid() && Runs.Sound(View())
      ensures (View(), served) == Core.PollServe(old(View()), laneID, serial, cursor, expected)
    {
      hide LaneOK, Core.FailLane, Serve, Runs.Sound;
      Runs.StepIsSound(View(), Core.Poll(laneID, serial, cursor, expected));
      if closed || laneID !in lanes || lanes[laneID].serial != serial {
        return None;
      }
      var down := lanes[laneID].down;
      ServeKeeps(down, cursor, limits.carrierBatchBytes);
      var after, result, cost, items := ServePoll(down, cursor, limits.carrierBatchBytes);
      lanes := lanes[laneID := lanes[laneID].(down := after)];
      ReleasePending(cost, items);
      if result.BadCursor? {
        LaneProtocolFailure(laneID, expected);
      }
      return Some(result);
    }

    method ReserveWebSocketInput(handle: nat, size: nat)
      requires Valid() && Runs.Sound(View())
      modifies this
      ensures Valid() && Runs.Sound(View())
      ensures View() == Core.ReserveInput(old(View()), handle, size)
    {
      hide SessionAdmits, Runs.Sound;
      Runs.StepIsSound(View(), Core.ReserveIn(handle, size));
      if closed || handle in inputs || size > 2 * Min(limits.maxBodyBytes, MAX_CARRIER_BATCH_BYTES) {
        return;
      }
      var ok := ReservePending(size + QUEUE_ITEM_COST, 1, Uplink);
      if ok {
        inputs := inputs[handle := size + QUEUE_ITEM_COST];
      }
    }

    method ResizeWebSocketInput(handle: nat, size: nat) returns (ok: bool)
      requires Valid() && Runs.Sound(View())
      modifies this
      ensures Valid() && Runs.Sound(View())
      ensures (View(), ok) == Core.ResizeInput(old(View()), handle, size)
    {
      hide SessionAdmits, Runs.Sound, History.History.Valid, Closed.BoundedSet.Valid;
      Runs.StepIsSound(View(), Core.ResizeIn(handle, size));
      if closed || handle !in inputs || size > 3 * Min(limits.maxBodyBytes, MAX_CARRIER_BATCH_BYTES) {
        return false;
      }
      var newCost := size + QUEUE_ITEM_COST;
      var delta := newCost - inputs[handle];
      if delta > 0 {
        ok := ReservePending(delta, 0, Uplink);
        if !ok {
          return;
        }
      }
      if delta < 0 {
        ReleasePending(-delta, 0);
      }
      inputs := inputs[handle := newCost];
      return true;
    }

    method ReleaseWebSocketInput(handle: nat)
      requires Valid() && Runs.Sound(View())
      modifies this
      ensures Valid() && Runs.Sound(View())
      ensures View() == Core.ReleaseInput(old(View()), handle)
    {
      hide Runs.Sound;
      Runs.StepIsSound(View(), Core.ReleaseIn(handle));
      if handle !in inputs {
        return;
      }
      var cost := inputs[handle];
      inputs := inputs - {handle};
      if !closed {
        ReleasePending(cost, 1);
      }
    }
  }

  lemma {:induction false} CloseIsQueueable(id: StreamID)
    ensures Queueable(CLOSE, id, [])
  {}

  lemma {:induction false} KeepsLanes(s: Core.Session, cost: nat, items: nat, class_: PendingClass)
    ensures Core.ReservePending(s, cost, items, class_).0.lanes == s.lanes
  {
    hide SessionAdmits;
  }

  lemma {:induction false} KeepsStreams(s: Core.Session, id: nat)
    ensures Core.DropFrames(s, id).streams == s.streams
  {
    hide LaneOK, Dropped;
  }
}
