/** The two users of a connection's inbound budget, its decoder and its uplink worker, and its close. */
module WebSocketConnection {
  import opened Bytes
  import opened Sums
  import F = WebSocketFrames
  import I = WebSocketInput

  const MAX_QUEUED := 512

  /** A complete message: its reservation and its payload's length. */
  datatype Inbound = Inbound(id: nat, payload: nat)

  datatype Worker =
    | Idle
    | Holding(input: Inbound)
    | Growing(id: nat)
    | Ready(id: nat, grown: bool)
    | Releasing(id: nat, ok: bool)
    | Stopped

  /** A data frame whose reservation passed the local budget and waits for the session's answer. */
  datatype Asked = Asked(head: F.Head, id: nat, size: nat)

  datatype Connection = Connection(
    policy: F.Policy,
    io: I.State,
    machine: F.Machine,
    asked: Option<Asked>,
    fragment: Option<nat>,   // the reservation of the message being decoded
    queue: seq<Inbound>,     // messages for the worker
    worker: Worker,
    leaving: set<nat>,       // reservations the close gives back
    next: nat)

  function New(policy: F.Policy): Connection {
    Connection(policy, I.State(I.Budget(0, 0, 3 * policy.maxMessage, MAX_QUEUED), map[], false),
               F.START, None, None, [], Idle, {}, 0)
  }

  /** The reserver's answer to the frame at hand. */
  function Answering(p: F.Policy, granted: bool): F.Policy {
    p.(grants := (asked: nat, size: nat) => granted)
  }

  function Wanted(c: Connection, h: F.Head): nat {
    c.machine.owned + h.length + F.Nodes(c.machine, h.length) * c.policy.fragmentBytes
  }

  predicate Masked(h: F.Head) {
    h.masked ==> |h.mask| == 4
  }

  predicate WellFormed(c: Connection) {
    F.MachineOK(c.machine) && (c.asked.Some? ==> Masked(c.asked.value.head))
  }

  // ---------------------------------------------------------------- the event loop

  /** releaseInbound, up to the releases themselves: the decoder is reset and its reservation goes. */
  function Shut(c: Connection): (d: Connection)
    ensures WellFormed(d)
  {
    c.(machine := F.Reset(c.machine).(pending := None, closed := true), asked := None, fragment := None,
       leaving := if c.fragment.Some? then c.leaving + {c.fragment.value} else c.leaving)
  }

  /** The frame's reservation stands, or not. */
  function Answer(c: Connection, h: F.Head, id: nat, granted: bool): (d: Connection)
    requires WellFormed(c) && Masked(h)
    ensures WellFormed(d)
  {
    match F.Prepare(Answering(c.policy, granted), c.machine, h)
    case Ready(m) => c.(machine := m, asked := None, fragment := Some(id))
    case Refused(_) => Shut(c)
  }

  /** prepareFrame with reserveDecodedPayload: the first frame of a message creates the input, the others resize it. */
  function Header(c: Connection, h: F.Head): (d: Connection)
    requires WellFormed(c) && Masked(h)
    ensures WellFormed(d)
  {
    match F.Prepare(Answering(c.policy, false), c.machine, h)
    case Ready(m) => c.(machine := m)
    case Refused(error) =>
      var size := Wanted(c, h);
      if !error.Resource? || size > 2 * c.policy.maxMessage then Shut(c)
      else match c.fragment
        case None =>
          var io := I.Step(c.io, I.Open(c.next, size));
          if c.next in io.inputs then c.(io := io, asked := Some(Asked(h, c.next, size)), next := c.next + 1) else Shut(c)
        case Some(id) =>
          if id in c.io.inputs && c.io.inputs[id] == I.Owned(size) then Answer(c, h, id, true)
          else
            var io := I.Step(c.io, I.Resize(id, size));
            if id in io.inputs && io.inputs[id].Resizing? then c.(io := io, asked := Some(Asked(h, id, size))) else Shut(c)
  }

  function Answered(c: Connection, granted: bool): (d: Connection)
    requires WellFormed(c) && c.asked.Some?
    ensures WellFormed(d)
  {
    var a := c.asked.value;
    var op := if c.fragment.None? then I.OpenAnswered(a.id, granted) else I.ResizeAnswered(a.id, granted);
    Answer(c.(io := I.Step(c.io, op)), a.head, a.id, granted)
  }

  /** A complete message goes to the worker with its reservation; a full queue ends the connection. */
  function Hand(c: Connection, payload: nat): (d: Connection)
    requires WellFormed(c)
    ensures WellFormed(d)
  {
    if c.fragment.None? || |c.queue| >= MAX_QUEUED then Shut(c)
    else c.(fragment := None, queue := c.queue + [Inbound(c.fragment.value, payload)])
  }

  predicate Fits(c: Connection, s: bytes) {
    && c.machine.pending.Some?
    && |c.machine.pending.value.received| + |s| <= c.machine.pending.value.head.length
  }

  function Payload(c: Connection, s: bytes): (d: Connection)
    requires WellFormed(c) && Fits(c, s)
    ensures WellFormed(d)
  {
    var m := F.Receive(c.machine, s);
    if !F.Whole(m) then c.(machine := m)
    else match F.Apply(c.policy, m)
      case Failed(_) => Shut(c)
      case Applied(next, message) =>
        var d := c.(machine := next);
        if message.None? then d
        else if message.value.opcode == F.BINARY then Hand(d, |message.value.payload|)
        else if message.value.opcode == F.CLOSE then Shut(d)
        else d
  }

  // ---------------------------------------------------------------- the worker

  /** processUplink's grow, for the contiguous body beside the chunks. */
  function Grow(c: Connection): Connection
    requires c.worker.Holding?
  {
    var Inbound(id, payload) := c.worker.input;
    if id !in c.io.inputs || !c.io.inputs[id].Owned? then c.(worker := Ready(id, false))
    else if payload == 0 then c.(worker := Ready(id, true))
    else
      var io := I.Step(c.io, I.Resize(id, c.io.inputs[id].size + payload));
      if id in io.inputs && io.inputs[id].Resizing? then c.(io := io, worker := Growing(id))
      else c.(worker := Ready(id, false))
  }

  datatype Op =
    | Reads(head: F.Head)
    | IsAnswered(granted: bool)
    | Receives(payload: bytes)
    | Takes
    | Grows
    | HasGrown(granted: bool)
    | Sends(ok: bool)
    | Returns
    | Stops
    | Shuts
    | Drains
    | Leaves(id: nat)
    | HasLeft(id: nat)

  predicate Enabled(c: Connection, op: Op) {
    match op
    case Reads(h) => c.asked.None? && !c.machine.closed && c.machine.pending.None? && Masked(h)
    case IsAnswered(_) => c.asked.Some?
    case Receives(s) => c.asked.None? && !c.machine.closed && Fits(c, s)
    case Takes => c.worker.Idle? && c.queue != []
    case Grows => c.worker.Holding?
    case HasGrown(_) => c.worker.Growing?
    case Sends(_) => c.worker.Ready?
    case Returns => c.worker.Releasing?
    case Stops => c.worker.Idle? && c.machine.closed
    case Shuts => c.asked.None? && !c.machine.closed
    case Drains => c.machine.closed && c.queue != []
    case Leaves(id) => id in c.leaving && id in c.io.inputs && c.io.inputs[id].Owned?
    case HasLeft(id) => id in c.leaving && id in c.io.inputs && c.io.inputs[id].Releasing?
  }

  /** Any step of the event loop, the worker or the close; every answer of the session is a parameter. */
  function Step(c: Connection, op: Op): (d: Connection)
    requires WellFormed(c)
    ensures WellFormed(d)
  {
    if !Enabled(c, op) then c
    else match op
      case Reads(h) => Header(c, h)
      case IsAnswered(granted) => Answered(c, granted)
      case Receives(s) => Payload(c, s)
      case Takes => c.(worker := Holding(c.queue[0]), queue := c.queue[1..])
      case Grows => Grow(c)
      case HasGrown(granted) =>
        c.(io := I.Step(c.io, I.ResizeAnswered(c.worker.id, granted)), worker := Ready(c.worker.id, granted))
      case Sends(ok) =>
        c.(io := I.Step(c.io, I.Release(c.worker.id)), worker := Releasing(c.worker.id, c.worker.grown && ok))
      case Returns =>
        c.(io := I.Step(c.io, I.ReleaseLocal(c.worker.id)),
           worker := if c.worker.ok && !c.machine.closed then Idle else Stopped)
      case Stops => c.(worker := Stopped)
      case Shuts => Shut(c)
      case Drains => c.(queue := c.queue[1..], leaving := c.leaving + {c.queue[0].id})
      case Leaves(id) => c.(io := I.Step(c.io, I.Release(id)))
      case HasLeft(id) => c.(io := I.Step(c.io, I.ReleaseLocal(id)), leaving := c.leaving - {id})
  }

  function Run(c: Connection, ops: seq<Op>): (d: Connection)
    requires WellFormed(c)
    ensures WellFormed(d)
    decreases |ops|
  {
    if ops == [] then c else Run(Step(c, ops[0]), ops[1..])
  }

  // ---------------------------------------------------------------- who owns which input

  function ReaderId(c: Connection): Option<nat> {
    if c.asked.Some? then Some(c.asked.value.id) else c.fragment
  }

  function WorkerId(c: Connection): Option<nat> {
    match c.worker
    case Holding(input) => Some(input.id)
    case Growing(id) => Some(id)
    case Ready(id, _) => Some(id)
    case Releasing(id, _) => Some(id)
    case _ => None
  }

  predicate Has(c: Connection, id: nat) {
    id in c.io.inputs
  }

  /** No input has two owners. */
  ghost predicate Apart(c: Connection) {
    && (forall i, j | 0 <= i < j < |c.queue| :: c.queue[i].id != c.queue[j].id)
    && (forall i | 0 <= i < |c.queue| ::
          c.queue[i].id !in c.leaving && Some(c.queue[i].id) != ReaderId(c) && Some(c.queue[i].id) != WorkerId(c))
    && (ReaderId(c).Some? ==> ReaderId(c).value !in c.leaving && ReaderId(c) != WorkerId(c))
    && (WorkerId(c).Some? ==> WorkerId(c).value !in c.leaving)
  }

  /** The decoder's reservation is what it counted, or waits for a session answer that makes it so. */
  predicate ReaderOK(c: Connection) {
    match c.asked
    case None =>
      if c.fragment.Some? then Has(c, c.fragment.value) && c.io.inputs[c.fragment.value] == I.Owned(c.machine.owned)
      else c.machine.owned == 0
    case Some(a) =>
      && Masked(a.head) && F.MachineOK(c.machine)
      && F.Prepare(Answering(c.policy, false), c.machine, a.head) == F.Refused(F.Resource)
      && Has(c, a.id) && a.size == Wanted(c, a.head)
      && (if c.fragment.None? then c.io.inputs[a.id] == I.Opening(a.size)
          else c.fragment == Some(a.id) && c.io.inputs[a.id] == I.Resizing(c.machine.owned, a.size))
  }

  /** A message that has a data frame has a reservation. */
  predicate Covered(c: Connection) {
    && (c.machine.fragmented ==> c.fragment.Some?)
    && (c.machine.pending.Some? && !F.Control(c.machine.pending.value.head.opcode) ==> c.fragment.Some?)
    && (c.asked.Some? ==> c.machine.pending.None?)
  }

  predicate WorkerOK(c: Connection) {
    match c.worker
    case Holding(input) => Has(c, input.id) && c.io.inputs[input.id].Owned?
    case Growing(id) => Has(c, id) && c.io.inputs[id].Resizing?
    case Ready(id, _) => Has(c, id) && c.io.inputs[id].Owned?
    case Releasing(id, _) => Has(c, id) && c.io.inputs[id].Releasing?
    case _ => true
  }

  predicate OthersOK(c: Connection) {
    && (forall i | 0 <= i < |c.queue| :: Has(c, c.queue[i].id) && c.io.inputs[c.queue[i].id].Owned?)
    && (forall id | id in c.leaving :: Has(c, id) && (c.io.inputs[id].Owned? || c.io.inputs[id].Releasing?))
    && (forall id | id in c.io.inputs :: id < c.next)
    && |c.queue| <= MAX_QUEUED
  }

  ghost predicate Queued(c: Connection, id: nat) {
    exists i | 0 <= i < |c.queue| :: c.queue[i].id == id
  }

  /** Every input has an owner. */
  ghost predicate Owned(c: Connection) {
    forall id | id in c.io.inputs ::
      Some(id) == ReaderId(c) || Some(id) == WorkerId(c) || id in c.leaving || Queued(c, id)
  }

  /** What does not depend on the decoder's count. */
  ghost predicate Base(c: Connection) {
    && WellFormed(c)
    && I.Counted(c.io) && I.Growing(c.io) && !c.io.panicked
    && Apart(c) && WorkerOK(c) && OthersOK(c) && Owned(c)
  }

  ghost predicate Sound(c: Connection) {
    Base(c) && ReaderOK(c) && Covered(c)
  }

  // ---------------------------------------------------------------- one step

  /** A step of one input leaves the others alone, keeps the count and does not panic. */
  lemma {:induction false} InputStep(s: I.State, op: I.Op)
    requires I.Counted(s) && I.Growing(s) && !s.panicked && I.Grows(s, op)
    ensures var t := I.Step(s, op);
            && I.Counted(t) && I.Growing(t) && !t.panicked
            && forall x | x != op.id :: (x in t.inputs <==> x in s.inputs) && (x in s.inputs ==> t.inputs[x] == s.inputs[x])
  {
    I.StepCounted(s, op);
    I.StepNeverPanics(s, op);
  }

  predicate Mine(c: Connection, id: nat) {
    Some(id) == ReaderId(c) || Some(id) == WorkerId(c) || id in c.leaving
  }

  /** The queue stays, and nothing but input `id` changes hands or state. */
  predicate OnlyInput(c: Connection, d: Connection, id: nat) {
    && d.queue == c.queue && d.next >= c.next
    && c.leaving - {id} <= d.leaving <= c.leaving
    && (ReaderId(d) == ReaderId(c) || (ReaderId(c) == Some(id) && ReaderId(d) == None))
    && (WorkerId(d) == WorkerId(c) || (WorkerId(c) == Some(id) && WorkerId(d) == None))
    && (forall x | x != id && x in d.io.inputs :: x in c.io.inputs)
    && (forall x | x != id && x in c.io.inputs :: x in d.io.inputs && d.io.inputs[x] == c.io.inputs[x])
  }

  lemma {:induction false} ApartKept(c: Connection, d: Connection, id: nat)
    requires Apart(c) && OnlyInput(c, d, id)
    ensures Apart(d)
  {}

  lemma {:induction false} OthersKept(c: Connection, d: Connection, id: nat)
    requires Apart(c) && OthersOK(c) && OnlyInput(c, d, id) && Mine(c, id)
    requires id in d.io.inputs ==> id in c.io.inputs
    requires id in d.leaving ==> Has(d, id) && (d.io.inputs[id].Owned? || d.io.inputs[id].Releasing?)
    ensures OthersOK(d)
  {}

  lemma {:induction false} OwnedKept(c: Connection, d: Connection, id: nat)
    requires Owned(c) && OnlyInput(c, d, id) && (id in d.io.inputs ==> Mine(d, id))
    ensures Owned(d)
  {
    SameQueue(c, d);
    hide Queued;
  }

  /** A step of an input that belongs to the event loop, the worker or the close keeps what the others rely on. */
  lemma {:induction false} BaseKept(c: Connection, d: Connection, id: nat, op: I.Op)
    requires Base(c) && Mine(c, id) && OnlyInput(c, d, id) && op.id == id && id in c.io.inputs
    requires I.Grows(c.io, op) && d.io == I.Step(c.io, op)
    requires id in d.io.inputs ==> Mine(d, id)
    requires id in d.leaving ==> Has(d, id) && (d.io.inputs[id].Owned? || d.io.inputs[id].Releasing?)
    requires WellFormed(d) && WorkerOK(d)
    ensures Base(d)
  {
    hide I.Counted, I.Growing, Apart, OthersOK, Owned, WorkerOK, OnlyInput, Mine, WellFormed, I.Grows, I.Step;
    InputStep(c.io, op);
    ApartKept(c, d, id);
    OthersKept(c, d, id);
    OwnedKept(c, d, id);
  }

  lemma {:induction false} ReaderKept(c: Connection, d: Connection, id: nat)
    requires ReaderOK(c) && Covered(c) && OnlyInput(c, d, id) && ReaderId(c) != Some(id)
    requires d.policy == c.policy && d.machine == c.machine && d.asked == c.asked && d.fragment == c.fragment
    ensures ReaderOK(d) && Covered(d)
  {
    hide F.Prepare, F.Nodes;
  }

  lemma {:induction false} WorkerKept(c: Connection, d: Connection, id: nat)
    requires WorkerOK(c) && OnlyInput(c, d, id) && WorkerId(c) != Some(id) && d.worker == c.worker
    ensures WorkerOK(d)
  {}

  /** Owners are apart. */
  lemma {:induction false} MineAlone(c: Connection)
    requires Apart(c)
    ensures ReaderId(c).Some? ==> ReaderId(c) != WorkerId(c) && ReaderId(c).value !in c.leaving
    ensures WorkerId(c).Some? ==> WorkerId(c).value !in c.leaving
  {}

  /** What a step makes of its own input. */
  lemma {:induction false} Becomes(s: I.State, op: I.Op)
    requires I.Counted(s) && I.Growing(s) && !s.panicked && op.id in s.inputs && I.Grows(s, op)
    ensures var (i, t) := (s.inputs[op.id], I.Step(s, op).inputs);
            match op
            case Open(_, _) => true
            case OpenAnswered(id, granted) =>
              i.Opening? ==> if granted then id in t && t[id] == I.Owned(i.size) else id !in t
            case Resize(id, next) =>
              i.Owned? ==> id in t && (t[id] == i || (t[id] == I.Resizing(i.size, next) && i.size < next))
            case ResizeAnswered(id, granted) =>
              i.Resizing? ==> id in t && t[id] == I.Owned(if granted then i.next else i.previous)
            case Release(id) => i.Owned? ==> id in t && t[id].Releasing?
            case ReleaseLocal(id) => i.Releasing? ==> id !in t
  {
    InputStep(s, op);
  }

  lemma {:induction false} ShutSound(c: Connection)
    requires Base(c) && c.asked.None?
    requires c.fragment.Some? ==> Has(c, c.fragment.value) && c.io.inputs[c.fragment.value].Owned?
    ensures Sound(Shut(c))
  {
    var d := Shut(c);
    hide I.Counted, I.Growing;
    assert d.io == c.io && d.queue == c.queue && d.worker == c.worker;
    forall id | id in d.io.inputs
      ensures Some(id) == ReaderId(d) || Some(id) == WorkerId(d) || id in d.leaving || Queued(d, id)
    {
      assert Queued(c, id) ==> Queued(d, id);
    }
  }

  lemma {:induction false} Prepares(p: F.Policy, m: F.Machine, h: F.Head)
    requires F.MachineOK(m) && Masked(h)
    ensures match F.Prepare(Answering(p, false), m, h)
            case Ready(n) => F.Control(h.opcode) && n == m.(pending := n.pending) && n.pending == Some(F.Frame(h, []))
            case Refused(error) =>
              error.Resource? ==>
                && !F.Control(h.opcode)
                && F.Prepare(Answering(p, true), m, h)
                   == F.Ready(m.(owned := m.owned + h.length + F.Nodes(m, h.length) * p.fragmentBytes,
                                 asked := m.asked + 1, pending := Some(F.Frame(h, []))))
  {}

  lemma {:induction false} Applies(p: F.Policy, m: F.Machine)
    requires F.MachineOK(m) && F.Whole(m) && F.Apply(p, m).Applied?
    ensures var (n, message) := (F.Apply(p, m).m, F.Apply(p, m).message);
            && n.pending.None?
            && (message.Some? && message.value.opcode == F.BINARY ==>
                  !F.Control(m.pending.value.head.opcode) && n.owned == 0 && !n.fragmented)
            && (message.None? || message.value.opcode != F.BINARY ==>
                  n.owned == m.owned && (n.fragmented ==> m.fragmented || !F.Control(m.pending.value.head.opcode)))
  {}

  /** The queue and the owners stay as they are: so do the queued inputs. */
  lemma {:induction false} SameQueue(c: Connection, d: Connection)
    requires c.queue == d.queue
    ensures forall id :: Queued(c, id) == Queued(d, id)
  {}

  lemma {:induction false} OneMore(c: Connection, d: Connection, i: I.Input)
    requires Apart(c) && OthersOK(c) && Owned(c) && WorkerOK(c) && ReaderId(c).None?
    requires d.io.inputs == c.io.inputs[c.next := i] && ReaderId(d) == Some(c.next) && d.next == c.next + 1
    requires d.queue == c.queue && d.worker == c.worker && d.leaving == c.leaving
    ensures c.next !in c.io.inputs && Apart(d) && OthersOK(d) && Owned(d) && WorkerOK(d)
  {
    assert c.next !in c.io.inputs;
    SameQueue(c, d);
    hide Queued;
  }

  /** A new input for the decoder. */
  lemma {:induction false} NewInput(c: Connection, asked: Asked)
    requires Base(c) && c.asked.None? && c.fragment.None? && asked.id == c.next && Masked(asked.head)
    requires c.next in I.Step(c.io, I.Open(c.next, asked.size)).inputs
    ensures Base(c.(io := I.Step(c.io, I.Open(c.next, asked.size)), asked := Some(asked), next := c.next + 1))
    ensures I.Step(c.io, I.Open(c.next, asked.size)).inputs[c.next] == I.Opening(asked.size)
  {
    var op := I.Open(c.next, asked.size);
    var d := c.(io := I.Step(c.io, op), asked := Some(asked), next := c.next + 1);
    InputStep(c.io, op);
    hide I.Counted, I.Growing, I.Grows, F.MachineOK, Apart, Owned, WorkerOK;
    assert c.next !in c.io.inputs;
    hide OthersOK;
    OneMore(c, d, I.Opening(asked.size));
  }

  /** The first frame of a message. */
  lemma {:induction false} AskNew(c: Connection, h: F.Head)
    requires Sound(c) && Enabled(c, Reads(h)) && c.fragment.None?
    requires F.Prepare(Answering(c.policy, false), c.machine, h) == F.Refused(F.Resource)
    requires Wanted(c, h) <= 2 * c.policy.maxMessage
    ensures Sound(Header(c, h))
  {
    var size := Wanted(c, h);
    hide I.Step, I.Counted, I.Growing, Apart, OthersOK, Owned, WorkerOK, I.Grows;
    if c.next in I.Step(c.io, I.Open(c.next, size)).inputs {
      NewInput(c, Asked(h, c.next, size));
      hide Base, F.Prepare, F.Nodes;
    } else {
      ShutSound(c);
      hide Base, F.Prepare, F.Nodes;
    }
  }

  /** A frame of the open message: its reservation stays, grows at once, or waits for the session. */
  lemma {:induction false} AskMore(c: Connection, h: F.Head)
    requires Sound(c) && Enabled(c, Reads(h)) && c.fragment.Some?
    requires F.Prepare(Answering(c.policy, false), c.machine, h) == F.Refused(F.Resource)
    requires Wanted(c, h) <= 2 * c.policy.maxMessage
    ensures Sound(Header(c, h))
  {
    var d := Header(c, h);
    var id := c.fragment.value;
    var op := I.Resize(id, Wanted(c, h));
    Prepares(c.policy, c.machine, h);
    MineAlone(c);
    hide I.Counted, I.Growing, F.Prepare, Apart, OthersOK, Owned, I.Step, F.Nodes;
    if c.io.inputs[id] == I.Owned(Wanted(c, h)) {
      SameFragment(c, d);
    } else {
      InputStep(c.io, op);
      Becomes(c.io, op);
      hide I.Grows;
      if I.Step(c.io, op).inputs[id].Resizing? {
        WorkerKept(c, d, id);
        hide WorkerOK;
        BaseKept(c, d, id, op);
      } else {
        ShutSound(c);
      }
    }
  }

  /** Nothing but the decoder's own state changes. */
  lemma {:induction false} SameFragment(c: Connection, d: Connection)
    requires Base(c) && WellFormed(d) && d.io == c.io && d.queue == c.queue && d.worker == c.worker
    requires d.leaving == c.leaving && d.next == c.next && ReaderId(d) == ReaderId(c)
    ensures Base(d)
  {
    hide I.Counted, I.Growing, WellFormed;
    SameQueue(c, d);
    hide Queued;
  }

  lemma {:induction false} HeaderSound(c: Connection, h: F.Head)
    requires Sound(c) && Enabled(c, Reads(h))
    ensures Sound(Header(c, h))
  {
    hide I.Counted, I.Growing, F.Prepare;
    Prepares(c.policy, c.machine, h);
    var size := Wanted(c, h);
    var prepared := F.Prepare(Answering(c.policy, false), c.machine, h);
    if prepared.Ready? {
      assert Queued(c, 0) ==> Queued(Header(c, h), 0);
    } else if !prepared.error.Resource? || size > 2 * c.policy.maxMessage {
      ShutSound(c);
    } else if c.fragment.None? {
      AskNew(c, h);
    } else {
      AskMore(c, h);
    }
  }

  function AnswerOp(c: Connection, granted: bool): I.Op
    requires c.asked.Some?
  {
    if c.fragment.None? then I.OpenAnswered(c.asked.value.id, granted) else I.ResizeAnswered(c.asked.value.id, granted)
  }

  lemma {:induction false} GrantedSound(c: Connection)
    requires Sound(c) && c.asked.Some?
    ensures Sound(Answered(c, true))
  {
    hide I.Counted, I.Growing, F.Prepare, Apart, OthersOK, Owned, I.Step, F.Nodes;
    var d := Answered(c, true);
    var a := c.asked.value;
    var op := AnswerOp(c, true);
    Prepares(c.policy, c.machine, a.head);
    MineAlone(c);
    InputStep(c.io, op);
    Becomes(c.io, op);
    WorkerKept(c, d, a.id);
    hide WorkerOK, I.Grows;
    BaseKept(c, d, a.id, op);
  }

  lemma {:induction false} RefusedSound(c: Connection)
    requires Sound(c) && c.asked.Some?
    ensures Sound(Answered(c, false))
  {
    var a := c.asked.value;
    var op := AnswerOp(c, false);
    var e := c.(io := I.Step(c.io, op), asked := None);
    assert Answered(c, false) == Shut(e) by {
      hide I.Step;
    }
    MineAlone(c);
    InputStep(c.io, op);
    Becomes(c.io, op);
    hide I.Counted, I.Growing, F.Prepare, Apart, OthersOK, Owned, I.Step, I.Grows, F.Nodes, Answered, Shut;
    WorkerKept(c, e, a.id);
    hide WorkerOK;
    BaseKept(c, e, a.id, op);
    ShutSound(e);
  }

  lemma {:induction false} PayloadSound(c: Connection, s: bytes)
    requires Sound(c) && Enabled(c, Receives(s))
    ensures Sound(Payload(c, s))
  {
    var m := F.Receive(c.machine, s);
    var d := Payload(c, s);
    hide I.Counted, I.Growing, F.Apply;
    if F.Whole(m) && F.Apply(c.policy, m).Applied? {
      Applies(c.policy, m);
      var next := F.Apply(c.policy, m).m;
      var message := F.Apply(c.policy, m).message;
      if message.Some? && message.value.opcode == F.BINARY {
        HandSound(c, next, |message.value.payload|);
      } else {
        SameFragment(c, c.(machine := next));
        hide Base;
        if message.Some? && message.value.opcode == F.CLOSE {
          ShutSound(c.(machine := next));
        }
      }
    } else if F.Whole(m) {
      ShutSound(c);
    } else {
      SameFragment(c, d);
      hide Base;
    }
  }

  lemma {:induction false} HandSound(c: Connection, next: F.Machine, payload: nat)
    requires Sound(c) && c.asked.None? && c.fragment.Some? && F.MachineOK(next)
    requires next.owned == 0 && !next.fragmented && next.pending.None?
    ensures Sound(Hand(c.(machine := next), payload))
  {
    var d := c.(machine := next);
    var e := Hand(d, payload);
    hide I.Counted, I.Growing;
    if |c.queue| >= MAX_QUEUED {
      SameQueue(c, d);
      hide Queued;
      ShutSound(d);
    } else {
      assert e.queue[|c.queue|].id == c.fragment.value;
      forall id | Queued(c, id) ensures Queued(e, id) {
        var i :| 0 <= i < |c.queue| && c.queue[i].id == id;
        assert e.queue[i] == c.queue[i];
      }
      assert Queued(e, c.fragment.value);
      hide Queued;
    }
  }

  lemma {:induction false} SameReader(c: Connection, d: Connection)
    requires ReaderOK(c) && Covered(c)
    requires d == c.(queue := d.queue, worker := d.worker, leaving := d.leaving)
    ensures ReaderOK(d) && Covered(d)
  {
    hide F.Prepare, F.Nodes;
  }

  /** The head of the queue gets another owner. */
  lemma {:induction false} TakeSound(c: Connection, d: Connection)
    requires Sound(c) && c.queue != []
    requires
      || (c.worker.Idle? && d == c.(worker := Holding(c.queue[0]), queue := c.queue[1..]))
      || d == c.(queue := c.queue[1..], leaving := c.leaving + {c.queue[0].id})
    ensures Sound(d)
  {
    SameReader(c, d);
    hide I.Counted, I.Growing, F.MachineOK, ReaderOK, Covered;
    assert Owned(d) by {
      forall id | Queued(c, id) ensures id == c.queue[0].id || Queued(d, id) {
        var i :| 0 <= i < |c.queue| && c.queue[i].id == id;
        assert i > 0 ==> d.queue[i - 1].id == id;
      }
      hide Queued, Apart, OthersOK, WorkerOK;
    }
    hide Owned;
    assert forall i | 0 <= i < |d.queue| :: d.queue[i] == c.queue[i + 1];
  }

  /** Nothing but the worker's own state changes. */
  lemma {:induction false} SameOwners(c: Connection, d: Connection)
    requires Base(c) && d == c.(worker := d.worker) && WorkerOK(d) && WorkerId(d) == WorkerId(c)
    ensures Base(d)
  {
    hide I.Counted, I.Growing, WorkerOK;
    SameQueue(c, d);
    hide Queued;
  }

  /** The worker's input takes a step, and the worker follows. */
  lemma {:induction false} WorkerSound(c: Connection, op: I.Op, worker: Worker)
    requires Sound(c) && WorkerId(c) == Some(op.id)
    requires
      || (c.worker.Holding? && op.Resize? && c.io.inputs[op.id].size < op.next
          && I.Step(c.io, op).inputs[op.id].Resizing? && worker == Growing(op.id))
      || (c.worker.Growing? && op.ResizeAnswered? && worker == Ready(op.id, op.granted))
      || (c.worker.Ready? && op.Release? && worker.Releasing? && worker.id == op.id)
      || (c.worker.Releasing? && op.ReleaseLocal? && (worker.Idle? || worker.Stopped?))
    ensures Sound(c.(io := I.Step(c.io, op), worker := worker))
  {
    var d := c.(io := I.Step(c.io, op), worker := worker);
    MineAlone(c);
    hide I.Counted, I.Growing, Apart, OthersOK, Owned, I.Step;
    InputStep(c.io, op);
    Becomes(c.io, op);
    ReaderKept(c, d, op.id);
    hide I.Grows, ReaderOK, Covered;
    BaseKept(c, d, op.id, op);
  }

  lemma {:induction false} GrowSound(c: Connection)
    requires Sound(c) && c.worker.Holding?
    ensures Sound(Grow(c))
  {
    var d := Grow(c);
    var Inbound(id, payload) := c.worker.input;
    if d.worker.Growing? {
      WorkerSound(c, I.Resize(id, c.io.inputs[id].size + payload), d.worker);
    } else {
      hide I.Step, I.Counted, I.Growing, I.Grows;
      SameReader(c, d);
      hide ReaderOK, Covered;
      SameOwners(c, d);
    }
  }

  lemma {:induction false} StopSound(c: Connection)
    requires Sound(c) && c.worker.Idle?
    ensures Sound(c.(worker := Stopped))
  {
    hide I.Counted, I.Growing;
    SameOwners(c, c.(worker := Stopped));
  }

  lemma {:induction false} LeaveSound(c: Connection, op: I.Op)
    requires Sound(c) && op.id in c.leaving
    requires if c.io.inputs[op.id].Owned? then op.Release? else op.ReleaseLocal?
    ensures Sound(c.(io := I.Step(c.io, op), leaving := if op.Release? then c.leaving else c.leaving - {op.id}))
  {
    var d := c.(io := I.Step(c.io, op), leaving := if op.Release? then c.leaving else c.leaving - {op.id});
    MineAlone(c);
    assert c.io.inputs[op.id].Owned? || c.io.inputs[op.id].Releasing?;
    hide I.Counted, I.Growing, Apart, OthersOK, Owned, I.Step;
    InputStep(c.io, op);
    Becomes(c.io, op);
    ReaderKept(c, d, op.id);
    WorkerKept(c, d, op.id);
    hide I.Grows, ReaderOK, Covered, WorkerOK;
    BaseKept(c, d, op.id, op);
  }

  lemma {:induction false} StepSound(c: Connection, op: Op)
    requires Sound(c)
    ensures Sound(Step(c, op))
  {
    SoundIsWellFormed(c);
    hide Base, ReaderOK, Covered, Header, Answered, Payload, Shut, Grow, WellFormed, I.Step;
    if Enabled(c, op) {
      match op
      case Reads(h) => HeaderSound(c, h);
      case IsAnswered(granted) => if granted { GrantedSound(c); } else { RefusedSound(c); }
      case Receives(s) => PayloadSound(c, s);
      case Shuts => ShutsSound(c);
      case Takes => TakeSound(c, Step(c, op));
      case Drains => TakeSound(c, Step(c, op));
      case Leaves(id) => LeaveSound(c, I.Release(id));
      case HasLeft(id) => LeaveSound(c, I.ReleaseLocal(id));
      case Grows => GrowSound(c);
      case Stops => StopSound(c);
      case HasGrown(granted) => WorkerSound(c, I.ResizeAnswered(c.worker.id, granted), Step(c, op).worker);
      case Sends(_) => WorkerSound(c, I.Release(c.worker.id), Step(c, op).worker);
      case Returns => WorkerSound(c, I.ReleaseLocal(c.worker.id), Step(c, op).worker);
    }
  }

  lemma {:induction false} ShutsSound(c: Connection)
    requires Sound(c) && c.asked.None?
    ensures Sound(Shut(c))
  {
    ShutSound(c);
  }

  // ---------------------------------------------------------------- every run

  lemma {:induction false} NewSound(policy: F.Policy)
    ensures Sound(New(policy))
  {
    var inputs := New(policy).io.inputs;
    SumNothing(inputs, I.Share);
    SumNothing(inputs, I.One);
  }

  lemma {:induction false} RunSound(c: Connection, ops: seq<Op>)
    requires Sound(c)
    ensures WellFormed(c) && Sound(Run(c, ops))
    decreases |ops|
  {
    hide Base, ReaderOK, Covered, Step;
    assert WellFormed(c) by { SoundIsWellFormed(c); }
    if ops != [] {
      StepSound(c, ops[0]);
      var next := Step(c, ops[0]);
      RunSound(next, ops[1..]);
    }
  }

  lemma {:induction false} SoundIsWellFormed(c: Connection)
    requires Sound(c)
    ensures WellFormed(c)
  {}

  /**
   * Whatever a client sends, the session answers and the two goroutines interleave to: no accounting panic; the local
   * budget is the inputs' shares, within its maxima; and the open message's reservation is what the decoder counted.
   */
  lemma {:induction false} NeverPanics(policy: F.Policy, ops: seq<Op>)
    ensures var c := Run(New(policy), ops);
            && !c.io.panicked && I.Counted(c.io)
            && (c.asked.None? && c.fragment.Some? ==>
                  c.fragment.value in c.io.inputs && c.io.inputs[c.fragment.value] == I.Owned(c.machine.owned))
  {
    NewSound(policy);
    RunSound(New(policy), ops);
  }

  /** The close has given back everything it found, and neither goroutine holds an input. */
  predicate Finished(c: Connection) {
    c.machine.closed && c.asked.None? && c.fragment.None? && c.queue == [] && c.leaving == {} && WorkerId(c).None?
  }

  /** A connection that has finished closing has returned its whole budget. */
  lemma {:induction false} NothingLeaks(policy: F.Policy, ops: seq<Op>)
    requires Finished(Run(New(policy), ops))
    ensures var c := Run(New(policy), ops); c.io.inputs == map[] && c.io.budget.bytes == 0 && c.io.budget.items == 0
  {
    NewSound(policy);
    RunSound(New(policy), ops);
    var c := Run(New(policy), ops);
    assert forall id :: id !in c.io.inputs;
    SumNothing(c.io.inputs, I.Share);
    SumNothing(c.io.inputs, I.One);
  }
}
