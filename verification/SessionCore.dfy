/**
 * The WEB session engine as a value: every critical section under the session mutex is one function.
 *
 * `env` answers, in order, every question the session asks the manager (a budget charge, a stream
 * slot), so a statement about all sessions is a statement about all managers too. Fields marked
 * "audit" are not stored by the relay; they record what the theorems speak about.
 */
module SessionCore {
  import opened Bytes
  import opened FrameCodec
  import opened DownlinkLane
  import opened Limits
  import opened PendingBudget

  datatype Carrier = Https | HttpsLanes | WebSocket | WebSocketLanes

  predicate UsesLanes(c: Carrier) {
    c == HttpsLanes || c == WebSocketLanes
  }

  type uint32 = x: nat | x <= MAX_UINT32

  /** What happened to a stream's send credit: the client granted some, or a chunk of the backend's spent some. */
  datatype Credit = Grant(amount: nat) | Spend(amount: nat)

  /** What is left of the initial window after all of them; a grant never takes it beyond 32 bits. */
  function Balance(log: seq<Credit>): nat {
    if log == [] then INITIAL_STREAM_WINDOW
    else
      var before := Balance(log[..|log| - 1]);
      match log[|log| - 1]
      case Grant(n) => Min(MAX_UINT32, before + n)
      case Spend(n) => Max(0, before - n)
  }

  function Granted(log: seq<Credit>): nat {
    if log == [] then 0
    else Granted(log[..|log| - 1]) + (match log[|log| - 1] case Grant(n) => n case Spend(_) => 0)
  }

  function Spent(log: seq<Credit>): nat {
    if log == [] then 0
    else Spent(log[..|log| - 1]) + (match log[|log| - 1] case Grant(_) => 0 case Spend(n) => n)
  }

  /** No chunk spent more than there was. */
  predicate Covered(log: seq<Credit>) {
    log != [] ==>
      && Covered(log[..|log| - 1])
      && (log[|log| - 1].Spend? ==> log[|log| - 1].amount <= Balance(log[..|log| - 1]))
  }

  datatype Stream = Stream(
    receiveWindow: uint32,
    sendCredit: nat,
    pendingWriteBytes: nat,
    pendingWriteCost: nat,
    pendingWriteItems: nat,
    writes: seq<bytes>,
    inFlight: Option<bytes>, // the part of the buffer the writer goroutine still has to write
    halted: bool,            // the writer goroutine returned, because a drain it reported was refused
    accepted: bytes,         // audit: DATA bytes taken from the client
    written: bytes,          // audit: bytes the backend connection took
    offered: bytes,          // audit: bytes backendData accepted
    refused: nat,            // audit: bytes it had paid for but could not queue
    credits: seq<Credit>,    // audit: what became of the send credit, in order
    unreported: nat)         // audit: written bytes whose WINDOW frame could not be queued

  const NEW_STREAM := Stream(INITIAL_STREAM_WINDOW, INITIAL_STREAM_WINDOW, 0, 0, 0, [], None, false, [], [], [], 0, [], 0)

  datatype UpJob = UpJob(sequence: nat, body: bytes)

  /** A batch that was applied: those of its frames that were, all of them or those before a CLOSE without room. */
  datatype Attempt = Attempt(job: UpJob, frames: seq<Frame>, whole: bool)

  datatype CarrierLane = CarrierLane(
    serial: nat,             // the lane object's identity
    down: GoodLane,
    lastUpSequence: nat,
    lastUpBody: bytes,       // stands for its SHA-256 digest
    upActive: Option<UpJob>, // set between the two critical sections of one uplink request
    websocketActive: bool,
    upTried: seq<Attempt>,   // audit: the batches applied, whole or in part
    upBodies: seq<bytes>,    // audit: the acknowledged ones
    upFrames: seq<Frame>)    // audit: every frame applied

  function NewLane(serial: nat): CarrierLane {
    CarrierLane(serial, NEW_LANE, 0, [], None, false, [], [], [])
  }

  /** boundedSet: the last `capacity` distinct values, evicting the oldest. */
  datatype Tombstones = Tombstones(order: seq<nat>, next: nat, capacity: nat)

  function Remember(t: Tombstones, v: nat): (Tombstones, Option<nat>) {
    if v in t.order then (t, None)
    else if |t.order| < t.capacity then (t.(order := t.order + [v]), None)
    else if t.next < |t.order| then
      (t.(order := t.order[t.next := v], next := (t.next + 1) % |t.order|), Some(t.order[t.next]))
    else (t, None)
  }

  datatype Session = Session(
    limits: Limits,
    carrier: Carrier,
    streams: map<StreamID, Stream>,
    used: set<nat>,
    tombstones: Tombstones,
    lanes: map<nat, CarrierLane>,
    nextSerial: nat,
    ledger: Ledger,
    inputs: map<nat, nat>,   // live WebSocket input reservations and their cost
    closed: bool,
    broken: bool,            // a nil dereference, a window underflow or an accounting panic happened
    env: nat -> bool,
    asked: nat,
    openLog: seq<nat>)       // audit: streams in the order they were opened

  function NewSession(l: Limits, c: Carrier, env: nat -> bool): Session {
    Session(l, c, map[], {}, Tombstones([], 0, l.maxClosedStreamIDs),
            if c == WebSocketLanes then map[] else map[0 := NewLane(0)], 1,
            EMPTY_LEDGER, map[], false, false, env, 0, [])
  }

  function LaneID(s: Session, streamID: nat): nat {
    if UsesLanes(s.carrier) then streamID else 0
  }

  // ---------------------------------------------------------------- budget

  /** reservePendingLocked, with the manager's answer taken from `env`. */
  function ReservePending(s: Session, cost: nat, items: nat, class_: PendingClass): (r: (Session, bool))
    ensures r.0.lanes == s.lanes
  {
    if cost == 0 && items == 0 then (s, true)
    else if !SessionAdmits(s.limits, s.ledger, cost, items, class_) then (s, false)
    else if !s.env(s.asked) then (s.(asked := s.asked + 1), false)
    else (s.(asked := s.asked + 1, ledger := Charge(s.ledger, cost, items)), true)
  }

  function ReleasePending(s: Session, cost: int, items: int): Session {
    if cost < 0 || items < 0 then s.(broken := true)
    else s.(ledger := Discharge(s.ledger, cost, items))
  }

  // ---------------------------------------------------------------- downlink queue

  function SetLane(s: Session, laneID: nat, lane: CarrierLane): Session {
    s.(lanes := s.lanes[laneID := lane])
  }

  function SetDown(s: Session, laneID: nat, down: GoodLane): Session
    requires laneID in s.lanes
  {
    SetLane(s, laneID, s.lanes[laneID].(down := down))
  }

  /** The lane an operation uses, created when it is missing. */
  function Attach(s: Session, laneID: nat): Session {
    if laneID in s.lanes then s
    else SetLane(s, laneID, NewLane(s.nextSerial)).(nextSerial := s.nextSerial + 1)
  }

  /** queueFrameLocked. */
  function QueueFrame(s: Session, kind: byte, id: nat, payload: bytes): (r: (Session, bool))
    requires Queueable(kind, id, payload)
  {
    var laneID := LaneID(s, id);
    if laneID !in s.lanes then (s, false)
    else
      var down := s.lanes[laneID].down;
      var plan := PlanFrame(down, kind, id, payload);
      var (t, ok) := ReservePending(s, PlanCost(plan, payload), PlanItems(plan), if kind == DATA then Downlink else Control);
      if !ok then (t, false)
      else (SetDown(t, laneID, Enqueued(down, kind, id, payload)), true)
  }

  /** dropPendingStreamFramesLocked. */
  function DropFrames(s: Session, id: nat): Session {
    var laneID := LaneID(s, id);
    if laneID !in s.lanes then s
    else
      var down := s.lanes[laneID].down;
      ReleasePending(SetDown(s, laneID, Dropped(down, id)), CostFor(down.pending, id), ItemsFor(down.pending, id))
  }

  /** releaseCarrierLaneLocked. */
  function ReleaseLane(s: Session, laneID: nat): Session {
    if laneID == 0 || laneID !in s.lanes then s
    else
      var down := s.lanes[laneID].down;
      ReleasePending(s.(lanes := s.lanes - {laneID}),
                     down.unackedCost + CostOf(down.pending), down.unackedItems + |down.pending|)
  }

  /** rememberClosedLocked. */
  function RememberClosed(s: Session, id: nat): Session {
    var (t, evicted) := Remember(s.tombstones, id);
    var u := s.(tombstones := t);
    if UsesLanes(s.carrier) && evicted.Some? then ReleaseLane(u, evicted.value) else u
  }

  /** releaseStreamWritesLocked followed by deleting the stream. */
  function DeleteStream(s: Session, id: nat): (r: Session)
    requires id in s.streams
  {
    var state := s.streams[id];
    ReleasePending(s.(streams := s.streams - {id}), state.pendingWriteCost, state.pendingWriteItems)
  }

  /** closeLocked: everything pending is returned to the manager in one call. */
  function Close(s: Session): Session {
    if s.closed then s
    else s.(closed := true, streams := map[], lanes := map[], ledger := s.ledger.(cost := 0, items := 0))
  }

  // ---------------------------------------------------------------- uplink: validation

  datatype Window = Window(receive: nat, send: nat)

  /** validateBatchLocked's simulated state after one frame; None when the frame is illegal. */
  datatype Check = Check(live: map<nat, Window>, usedInBatch: set<nat>)

  function CheckFrame(used: set<nat>, c: Check, f: Frame): Option<Check> {
    if f.streamID == 0 then
      if f.kind == PONG then Some(c) else None
    else
      var isLive := f.streamID in c.live;
      var wasUsed := f.streamID in c.usedInBatch || f.streamID in used;
      if f.kind == OPEN then
        if isLive || wasUsed then None
        else Some(Check(c.live[f.streamID := Window(INITIAL_STREAM_WINDOW, INITIAL_STREAM_WINDOW)],
                        c.usedInBatch + {f.streamID}))
      else if f.kind == DATA then
        if !isLive then (if wasUsed then Some(c) else None)
        else if |f.payload| > c.live[f.streamID].receive then None
        else
          var w := c.live[f.streamID];
          Some(c.(live := c.live[f.streamID := w.(receive := w.receive - |f.payload|)]))
      else if f.kind == WINDOW then
        if !isLive then (if wasUsed then Some(c) else None)
        else
          var w := c.live[f.streamID];
          Some(c.(live := c.live[f.streamID := w.(send := Min(MAX_UINT32, w.send + DeltaOf(f.payload)))]))
      else if f.kind == CLOSE then
        if !isLive then (if wasUsed then Some(c) else None)
        else Some(c.(live := c.live - {f.streamID}))
      else None
  }

  function CheckBatch(used: set<nat>, c: Check, frames: seq<Frame>): Option<Check>
    decreases |frames|
  {
    if frames == [] then Some(c)
    else match CheckFrame(used, c, frames[0])
      case None => None
      case Some(d) => CheckBatch(used, d, frames[1..])
  }

  function Snapshot(s: Session): Check {
    Check(map id | id in s.streams :: Window(s.streams[id].receiveWindow, s.streams[id].sendCredit), {})
  }

  predicate ValidBatch(s: Session, frames: seq<Frame>) {
    CheckBatch(s.used, Snapshot(s), frames).Some?
  }

  /** backendWriteReservationLocked: the charge reserved ahead of a batch, with `live` streams so far. */
  function Advance(live: set<nat>, frames: seq<Frame>): (nat, nat)
    decreases |frames|
  {
    if frames == [] then (0, 0)
    else
      var f := frames[0];
      if f.streamID != 0 && f.kind == OPEN then Advance(live + {f.streamID}, frames[1..])
      else if f.streamID != 0 && f.kind == DATA && f.streamID in live then
        var (cost, items) := Advance(live, frames[1..]);
        (cost + |f.payload| + QUEUE_ITEM_COST, items + 1)
      else if f.streamID != 0 && f.kind == CLOSE then Advance(live - {f.streamID}, frames[1..])
      else Advance(live, frames[1..])
  }

  // ---------------------------------------------------------------- uplink: application

  /** appendBackendWriteLocked: the charge, and the stream with the payload queued. */
  predicate Coalesces(state: Stream, payload: bytes) {
    state.writes != [] && |state.writes[|state.writes| - 1]| + |payload| <= RELAY_DATA_CHUNK
  }

  function WriteCost(state: Stream, payload: bytes): nat {
    if Coalesces(state, payload) then |payload| else |payload| + QUEUE_ITEM_COST
  }

  function WriteItems(state: Stream, payload: bytes): nat {
    if Coalesces(state, payload) then 0 else 1
  }

  function AppendWrite(state: Stream, payload: bytes): Stream {
    var last := |state.writes| - 1;
    state.(writes := if Coalesces(state, payload) then state.writes[last := state.writes[last] + payload]
                     else state.writes + [payload],
           pendingWriteBytes := state.pendingWriteBytes + |payload|,
           pendingWriteCost := state.pendingWriteCost + WriteCost(state, payload),
           pendingWriteItems := state.pendingWriteItems + WriteItems(state, payload),
           receiveWindow := (state.receiveWindow - |payload|) % 0x1_0000_0000,
           accepted := state.accepted + payload)
  }

  datatype Applied = Applied(s: Session, unusedCost: int, unusedItems: int, ok: bool)

  /** Room for one more stream here and at the manager (acquireStream). */
  function AcquireStream(s: Session): (Session, bool) {
    if |s.streams| >= s.limits.maxStreamsPerSession then (s, false)
    else (s.(asked := s.asked + 1), s.env(s.asked))
  }

  function Opened(s: Session, id: StreamID): Session {
    s.(streams := s.streams[id := NEW_STREAM], openLog := s.openLog + [id])
  }

  /** A refused OPEN is answered with CLOSE. */
  function Refused(s: Session, id: StreamID): (Session, bool) {
    QueueFrame(RememberClosed(s, id), CLOSE, id, [])
  }

  /** The OPEN case of applyBatchLocked. */
  function ApplyOpen(s: Session, id: StreamID): (Session, bool) {
    var (t, granted) := AcquireStream(s.(used := s.used + {id}));
    if granted then (Opened(t, id), true) else Refused(t, id)
  }

  /** The CLOSE case of applyBatchLocked on a live stream. */
  function ApplyClose(s: Session, id: nat): (r: Session)
    requires id in s.streams
  {
    RememberClosed(DeleteStream(DropFrames(s, id), id), id)
  }

  function ApplyFrame(a: Applied, f: Frame): Applied {
    var s := a.s;
    if f.streamID == 0 || f.streamID > MAX_STREAM_ID then a // a parsed identifier has 24 bits
    else if f.kind == OPEN then
      var (t, ok) := ApplyOpen(s, f.streamID);
      a.(s := t, ok := ok)
    else if f.kind !in {DATA, WINDOW, CLOSE} then a
    else if f.streamID !in s.streams then
      if f.streamID in s.used then a
      else a.(s := s.(broken := true)) // a nil stream would be dereferenced
    else
      var state := s.streams[f.streamID];
      if f.kind == DATA then
        Applied(s.(streams := s.streams[f.streamID := AppendWrite(state, f.payload)],
                   broken := s.broken || |f.payload| > state.receiveWindow),
                a.unusedCost - WriteCost(state, f.payload), a.unusedItems - WriteItems(state, f.payload), a.ok)
      else if f.kind == WINDOW then
        var credited := state.(sendCredit := Min(MAX_UINT32, state.sendCredit + DeltaOf(f.payload)),
                               credits := state.credits + [Grant(DeltaOf(f.payload))]);
        a.(s := s.(streams := s.streams[f.streamID := credited]))
      else a.(s := ApplyClose(s, f.streamID))
  }

  /** applyBatchLocked: stops at the first CLOSE frame that cannot be queued. */
  function ApplyBatch(a: Applied, frames: seq<Frame>): (r: Applied)
    decreases |frames|
  {
    if frames == [] || !a.ok then a else ApplyBatch(ApplyFrame(a, frames[0]), frames[1..])
  }

  /** How many frames applyBatchLocked got through. */
  function Taken(a: Applied, frames: seq<Frame>): (n: nat)
    ensures n <= |frames|
    decreases |frames|
  {
    if frames == [] || !a.ok || !ApplyFrame(a, frames[0]).ok then 0 else 1 + Taken(ApplyFrame(a, frames[0]), frames[1..])
  }

  // ---------------------------------------------------------------- uplink: one request

  datatype UpResult =
    | Proceed(serial: nat)
    | Acknowledged(sequence: nat)
    | UpClosed
    | UpProtocol(failLane: bool) // failLane: the caller fails the lane in a later critical section
    | UpBackpressure
    | UpUnfinished               // the batch stopped half way; the caller closes the session in a later critical section

  /** releaseWebSocketLaneLocked. */
  function ReleaseWebSocketLane(s: Session, laneID: nat, expected: Option<nat>): Session {
    if s.carrier != WebSocketLanes || expected.None? || laneID !in s.lanes
       || s.lanes[laneID].serial != expected.value then s
    else
      var t := SetLane(s, laneID, s.lanes[laneID].(websocketActive := false));
      var u := if laneID in t.streams then RememberClosed(DeleteStream(t, laneID), laneID) else t;
      ReleaseLane(u, laneID)
  }

  /** laneProtocolFailureLocked. */
  function FailLane(s: Session, laneID: nat, expected: Option<nat>): Session {
    if s.carrier != WebSocketLanes then Close(s) else ReleaseWebSocketLane(s, laneID, expected)
  }

  function ParseUplink(body: bytes, laneID: nat, lanes: bool): Result<seq<Frame>> {
    match Parse(body)
    case Err(e) => Err(e)
    case Ok(fs) =>
      if forall i | 0 <= i < |fs| :: (lanes ==> fs[i].streamID == laneID) && fs[i].kind != HELLO && ValidIn(fs[i], ClientToRelay)
      then Ok(fs) else Err(InvalidFrame)
  }

  predicate StartsWithOpen(body: bytes, laneID: nat) {
    FRAME_HEADER_SIZE <= |body| && body[0] == OPEN && Get24(body[1], body[2], body[3]) == laneID
  }

  predicate OnlyLateFrames(fs: seq<Frame>) {
    fs != [] && forall i | 0 <= i < |fs| :: fs[i].kind in {DATA, WINDOW, CLOSE}
  }

  /** The sequence checks of processUp's first critical section, on an existing lane. */
  function UpClaim(s: Session, laneID: nat, sequence: nat, body: bytes, expected: Option<nat>): (Session, UpResult)
    requires laneID in s.lanes
  {
    var lane := s.lanes[laneID];
    if sequence == lane.lastUpSequence then
      (s, if body == lane.lastUpBody then Acknowledged(sequence) else UpProtocol(true))
    else if sequence != lane.lastUpSequence + 1 then (FailLane(s, laneID, expected), UpProtocol(false))
    else if lane.upActive.Some? then (s, UpBackpressure)
    else (SetLane(s, laneID, lane.(upActive := Some(UpJob(sequence, body)))), Proceed(lane.serial))
  }

  /** The first critical section of processUp. */
  function UpBegin(s: Session, laneID: nat, sequence: nat, body: bytes, expected: Option<nat>): (r: (Session, UpResult)) {
    var known := laneID in s.lanes;
    if s.closed then (s, UpClosed)
    else if expected.Some? && !(known && s.lanes[laneID].serial == expected.value) then (s, UpClosed)
    else if sequence == 0 || |body| > s.limits.maxBodyBytes then (FailLane(s, laneID, expected), UpProtocol(false))
    else if !known && (!UsesLanes(s.carrier) || laneID == 0 || !StartsWithOpen(body, laneID)) then
      var parsed := ParseUplink(body, laneID, UsesLanes(s.carrier));
      (s, if UsesLanes(s.carrier) && parsed.Ok? && OnlyLateFrames(parsed.value) then Acknowledged(sequence) else UpProtocol(true))
    else UpClaim(Attach(s, laneID), laneID, sequence, body, expected)
  }

  /** The lane after a batch: only a whole one advances its sequence number. */
  function RecordBatch(lane: CarrierLane, job: UpJob, frames: seq<Frame>, whole: bool): CarrierLane {
    var tried := lane.(upTried := lane.upTried + [Attempt(job, frames, whole)], upFrames := lane.upFrames + frames);
    if whole then tried.(lastUpSequence := job.sequence, lastUpBody := job.body, upBodies := lane.upBodies + [job.body])
    else tried
  }

  /** The commit after a batch has been validated and its reservation granted. */
  function CommitBatch(s: Session, laneID: nat, job: UpJob, frames: seq<Frame>, cost: nat, items: nat): (r: (Session, UpResult))
    requires laneID in s.lanes
  {
    var start := Applied(s, cost, items, true);
    var a := ApplyBatch(start, frames);
    var t := ReleasePending(a.s, a.unusedCost, a.unusedItems);
    (if laneID !in t.lanes then t // its own lane object was released meanwhile
     else SetLane(t, laneID, RecordBatch(t.lanes[laneID], job, frames[..Taken(start, frames)], a.ok)),
     if a.ok then Acknowledged(job.sequence) else UpUnfinished)
  }

  /** What the second critical section does once the body has parsed. */
  function UpApply(s: Session, laneID: nat, job: UpJob, frames: seq<Frame>, expected: Option<nat>): (r: (Session, UpResult))
    requires laneID in s.lanes
  {
    if !ValidBatch(s, frames) then (FailLane(s, laneID, expected), UpProtocol(false))
    else
      var charge := Advance(s.streams.Keys, frames);
      var (u, granted) := ReservePending(s, charge.0, charge.1, Uplink);
      if !granted then (u, UpBackpressure)
      else CommitBatch(u, laneID, job, frames, charge.0, charge.1)
  }

  /** The second critical section of processUp, run by the request that holds lane `serial`. */
  function UpEnd(s: Session, laneID: nat, serial: nat, expected: Option<nat>): (r: (Session, UpResult))
  {
    if laneID !in s.lanes || s.lanes[laneID].serial != serial || s.lanes[laneID].upActive.None? then (s, UpClosed)
    else
      var job := s.lanes[laneID].upActive.value;
      var t := SetLane(s, laneID, s.lanes[laneID].(upActive := None));
      if t.closed then (t, UpClosed)
      else
        match ParseUplink(job.body, laneID, UsesLanes(s.carrier))
        case Err(_) => (FailLane(t, laneID, expected), UpProtocol(false))
        case Ok(frames) => UpApply(t, laneID, job, frames, expected)
  }

  // ---------------------------------------------------------------- backend goroutines

  /** nextWrite: the writer goroutine takes the oldest buffer. */
  function NextWrite(s: Session, id: nat): Session {
    if s.closed || id !in s.streams || s.streams[id].writes == [] || s.streams[id].inFlight.Some? then s
    else
      var state := s.streams[id];
      SetStream(s, id, state.(writes := state.writes[1..], inFlight := Some(state.writes[0])))
  }

  function SetStream(s: Session, id: StreamID, state: Stream): Session {
    s.(streams := s.streams[id := state])
  }

  /** backendDrained's guard, for the `amount` bytes the writer goroutine got rid of. */
  predicate CanDrain(state: Stream, amount: nat) {
    && 0 < amount <= state.pendingWriteBytes && amount <= state.pendingWriteCost
    && state.receiveWindow + amount <= INITIAL_STREAM_WINDOW
    && state.inFlight.Some? && !state.halted && amount <= |state.inFlight.value|
  }

  function Drain(state: Stream, amount: nat): Stream
    requires CanDrain(state, amount)
  {
    state.(pendingWriteBytes := state.pendingWriteBytes - amount,
           pendingWriteCost := state.pendingWriteCost - amount,
           receiveWindow := state.receiveWindow + amount,
           inFlight := Some(state.inFlight.value[amount..]),
           written := state.written + state.inFlight.value[..amount])
  }

  /** backendDrained: the connection took the next `amount` bytes of the buffer in flight; refused, the writer stops. */
  function BackendDrained(s: Session, id: nat, amount: nat): (Session, bool) {
    if s.closed || id !in s.streams || !CanDrain(s.streams[id], amount) then (s, false)
    else
      var state := Drain(s.streams[id], amount);
      var (t, ok) := QueueFrame(ReleasePending(SetStream(s, id, state), amount, 0), WINDOW, id, WindowPayload(amount).value);
      if ok then (t, true) else (SetStream(t, id, state.(unreported := state.unreported + amount, halted := true)), false)
  }

  /** backendWriteFinished: the whole buffer in flight was written. */
  function BackendWriteFinished(s: Session, id: nat): (Session, bool) {
    if s.closed || id !in s.streams then (s, false)
    else
      var state := s.streams[id];
      if state.pendingWriteItems == 0 || state.pendingWriteCost < QUEUE_ITEM_COST || state.inFlight != Some([])
         || state.halted then (s, false)
      else
        var done := state.(pendingWriteItems := state.pendingWriteItems - 1,
                           pendingWriteCost := state.pendingWriteCost - QUEUE_ITEM_COST,
                           inFlight := None);
        (ReleasePending(SetStream(s, id, done), QUEUE_ITEM_COST, 1), true)
  }

  function Pay(state: Stream, amount: nat): Stream
    requires amount <= state.sendCredit
  {
    state.(sendCredit := state.sendCredit - amount, credits := state.credits + [Spend(amount)])
  }

  /** backendData: the reader never hands over more than one relay chunk. */
  function BackendData(s: Session, id: nat, data: bytes): (r: (Session, bool))
    requires |data| <= RELAY_DATA_CHUNK
  {
    if s.closed || id !in s.streams || |data| == 0 || |data| > s.streams[id].sendCredit then (s, false)
    else
      var state := s.streams[id];
      var paid := Pay(state, |data|);
      var (t, ok) := QueueFrame(SetStream(s, id, paid), DATA, id, data);
      if !ok then (SetStream(t, id, paid.(refused := paid.refused + |data|)), false)
      else (SetStream(t, id, paid.(offered := paid.offered + data)), true)
  }

  /** backendClosed: the backend goroutine ended by itself. */
  function BackendClosed(s: Session, id: nat): Session {
    if s.closed || id !in s.streams then s
    else
      var t := RememberClosed(DeleteStream(DropFrames(s, id), id), id);
      var (u, ok) := QueueFrame(t, CLOSE, id, []);
      if ok then u else Close(u)
  }

  // ---------------------------------------------------------------- polls and reservations

  /** Acknowledge, replay, take or park on one lane, releasing what the cursor acknowledged. */
  function Polled(s: Session, laneID: nat, cursor: nat): (Session, Served)
    requires laneID in s.lanes
  {
    var down := s.lanes[laneID].down;
    var (m, served) := Serve(down, cursor, s.limits.carrierBatchBytes);
    ServeKeeps(down, cursor, s.limits.carrierBatchBytes);
    var t := SetDown(s, laneID, m);
    (if Acknowledges(down, cursor) then ReleasePending(t, down.unackedCost, down.unackedItems) else t, served)
  }

  /** The critical section of pollCarrier for the request that holds the lane's slot. */
  function PollServe(s: Session, laneID: nat, serial: nat, cursor: nat, expected: Option<nat>): (Session, Option<Served>) {
    if s.closed || laneID !in s.lanes || s.lanes[laneID].serial != serial then (s, None)
    else
      var (t, served) := Polled(s, laneID, cursor);
      (if served.BadCursor? then FailLane(t, laneID, expected) else t, Some(served))
  }

  /** reserveWebSocketInput; `handle` names the reservation object. */
  function ReserveInput(s: Session, handle: nat, size: nat): Session {
    if s.closed || handle in s.inputs || size > 2 * Min(s.limits.maxBodyBytes, MAX_CARRIER_BATCH_BYTES) then s
    else
      var (t, ok) := ReservePending(s, size + QUEUE_ITEM_COST, 1, Uplink);
      if ok then t.(inputs := t.inputs[handle := size + QUEUE_ITEM_COST]) else t
  }

  /** webSocketInputReservation.resize. */
  function ResizeInput(s: Session, handle: nat, size: nat): (Session, bool) {
    if s.closed || handle !in s.inputs || size > 3 * Min(s.limits.maxBodyBytes, MAX_CARRIER_BATCH_BYTES) then (s, false)
    else
      var newCost, cost := size + QUEUE_ITEM_COST, s.inputs[handle];
      if newCost > cost then
        var (t, ok) := ReservePending(s, newCost - cost, 0, Uplink);
        if ok then (t.(inputs := t.inputs[handle := newCost]), true) else (t, false)
      else
        var t := if newCost < cost then ReleasePending(s, cost - newCost, 0) else s;
        (t.(inputs := t.inputs[handle := newCost]), true)
  }

  /** webSocketInputReservation.Release: after the session closed there is nothing left to return. */
  function ReleaseInput(s: Session, handle: nat): Session {
    if handle !in s.inputs then s
    else
      var t := if s.closed then s else ReleasePending(s, s.inputs[handle], 1);
      t.(inputs := t.inputs - {handle})
  }

  /** AcquireWebSocketLane. */
  function AcquireLane(s: Session, laneID: nat): Session {
    if s.closed || s.carrier != WebSocketLanes || laneID == 0 || laneID > MAX_STREAM_ID || laneID in s.used then s
    else if laneID !in s.lanes && |s.lanes| >= s.limits.maxStreamsPerSession then s
    else
      var t := Attach(s, laneID);
      if t.lanes[laneID].websocketActive then t
      else SetLane(t, laneID, t.lanes[laneID].(websocketActive := true))
  }

  // ---------------------------------------------------------------- any interleaving

  datatype Op =
    | UpStart(laneID: nat, sequence: nat, body: bytes, expected: Option<nat>)
    | UpFinish(laneID: nat, serial: nat, expected: Option<nat>)
    | Fail(laneID: nat, expected: Option<nat>)
    | TakeWrite(id: nat)
    | Drained(id: nat, amount: nat)
    | WriteDone(id: nat)
    | FromBackend(id: nat, data: bytes)
    | BackendEnded(id: nat)
    | Poll(laneID: nat, serial: nat, cursor: nat, expected: Option<nat>)
    | ReserveIn(handle: nat, size: nat)
    | ResizeIn(handle: nat, size: nat)
    | ReleaseIn(handle: nat)
    | AttachLane(laneID: nat)
    | DetachLane(laneID: nat, expected: Option<nat>)
    | CloseNow

  /** One critical section. Without lanes every request uses lane 0. */
  function Step(s: Session, op: Op): Session {
    match op
    case UpStart(laneID, sequence, body, expected) => UpBegin(s, LaneID(s, laneID), sequence, body, expected).0
    case UpFinish(laneID, serial, expected) => UpEnd(s, LaneID(s, laneID), serial, expected).0
    case Fail(laneID, expected) => FailLane(s, LaneID(s, laneID), expected)
    case TakeWrite(id) => NextWrite(s, id)
    case Drained(id, amount) => BackendDrained(s, id, amount).0
    case WriteDone(id) => BackendWriteFinished(s, id).0
    case FromBackend(id, data) => if |data| <= RELAY_DATA_CHUNK then BackendData(s, id, data).0 else s
    case BackendEnded(id) => BackendClosed(s, id)
    case Poll(laneID, serial, cursor, expected) => PollServe(s, LaneID(s, laneID), serial, cursor, expected).0
    case ReserveIn(handle, size) => ReserveInput(s, handle, size)
    case ResizeIn(handle, size) => ResizeInput(s, handle, size).0
    case ReleaseIn(handle) => ReleaseInput(s, handle)
    case AttachLane(laneID) => AcquireLane(s, laneID)
    case DetachLane(laneID, expected) => ReleaseWebSocketLane(s, laneID, expected)
    case CloseNow => Close(s)
  }

  function Run(s: Session, ops: seq<Op>): Session
    decreases |ops|
  {
    if ops == [] then s else Run(Step(s, ops[0]), ops[1..])
  }
}
