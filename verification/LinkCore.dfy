/**
 * The goroutine-per-link engine as three processes and their channels: an owner that alone encodes and decodes, a
 * writer, and the peer whose reads the owner processes, with submitters and one event consumer around them.
 *
 * Each section under the engine's mutex and each channel operation is one step. `encode` stands for the continuous
 * frame and cipher state: its output may depend on every payload encoded before. What a read decodes to is given
 * with the read.
 */
module LinkCore {
  import opened Bytes
  import opened SeqSums

  datatype Submission = Submission(payload: bytes, size: nat)

  datatype Event = Event(id: nat, size: nat)

  /** Something a read asks of the owner: a protocol reply or pong, an event to publish, or an error. */
  datatype Action = Reply(payload: bytes) | Deliver(event: Event) | Broken

  datatype Config = Config(
    maxItems: nat,
    maxBytes: nat,
    maxEvents: nat,
    maxEventBytes: nat,
    encode: (seq<bytes>, bytes) -> Option<bytes>)
  {
    /** Capacity of the write and result channels. */
    function Lanes(): nat {
      maxEvents + 1
    }
  }

  /** One encoded frame; as a write job it may carry the submission it encodes. */
  datatype Entry = Entry(payload: bytes, wire: bytes, submission: Option<Submission>)

  datatype Result = Result(job: Entry, ok: bool)

  datatype Owner = Idle | Woken | Took | Waking | Signalling | Reading(todo: seq<Action>) | Stopped

  datatype Writer = Writer(current: Option<Entry>, count: nat, report: Option<Result>, gone: bool)

  datatype Status = Ready | Closing | Closed

  /** Audit: what happened so far. */
  datatype Log = Log(
    accepted: seq<Submission>, // submissions accepted, in order
    history: seq<Entry>,       // everything encoded, in order
    written: seq<Entry>,       // frames completely on the socket
    dropped: seq<Entry>,       // encoded but never handed to the writer
    socket: bytes,             // bytes the socket took
    published: seq<Event>,     // events published, in order
    consumed: seq<Event>)      // events the consumer took

  const EMPTY := Log([], [], [], [], [], [], [])

  datatype State = State(
    status: Status,
    queue: seq<Submission>,
    items: int,
    octets: int,
    wake: bool,
    capacity: bool,
    active: Option<Submission>,
    owner: Owner,
    jobs: seq<Entry>,
    writer: Writer,
    results: seq<Result>,
    sizes: seq<nat>,
    events: seq<Event>,
    eventItems: int,
    eventBytes: int,
    log: Log)

  function Start(todo: seq<Action>): State {
    State(Ready, [], 0, 0, false, false, None, if todo == [] then Idle else Reading(todo), [],
          Writer(None, 0, None, false), [], [], [], 0, 0, EMPTY)
  }

  function Payloads(entries: seq<Entry>): seq<bytes> {
    seq(|entries|, i requires 0 <= i < |entries| => entries[i].payload)
  }

  function Wires(entries: seq<Entry>): bytes {
    if entries == [] then [] else Wires(entries[..|entries| - 1]) + entries[|entries| - 1].wire
  }

  function Submissions(entries: seq<Entry>): seq<Submission> {
    if entries == [] then []
    else
      Submissions(entries[..|entries| - 1]) +
      (match entries[|entries| - 1].submission case None => [] case Some(x) => [x])
  }

  function Charge(s: Submission): nat {
    s.size
  }

  // ---------------------------------------------------------------- the sections

  datatype Verdict = Accepted | LinkClosed | TooLarge | Backpressure

  /** TrySubmit. */
  function TrySubmit(c: Config, s: State, x: Submission): (State, Verdict) {
    if s.status != Ready then (s, LinkClosed)
    else if x.size > c.maxBytes then (s, TooLarge)
    else if s.items >= c.maxItems || x.size > c.maxBytes - s.octets then (s, Backpressure)
    else (s.(queue := s.queue + [x], items := s.items + 1, octets := s.octets + x.size, wake := true,
             log := s.log.(accepted := s.log.accepted + [x])), Accepted)
  }

  /** beginTerminal: the first caller wins. */
  function Terminal(s: State): State {
    if s.status == Ready then s.(status := Closing) else s
  }

  function Fail(s: State): State {
    Terminal(s).(owner := Stopped)
  }

  /** takeSubmission, after the check that the owner is free and the write channel has room. */
  function Take(c: Config, s: State): State {
    if s.active.Some? || |s.jobs| == c.Lanes() || s.status != Ready || s.queue == [] then s.(owner := Idle)
    else s.(active := Some(s.queue[0]), queue := s.queue[1..], owner := Took)
  }

  /** Encode, which advances the cipher state, and what it produced. */
  function Encode(c: Config, s: State, payload: bytes, submission: Option<Submission>): (State, Option<Entry>) {
    match c.encode(Payloads(s.log.history), payload)
    case None => (s, None)
    case Some(wire) =>
      var e := Entry(payload, wire, submission);
      (s.(log := s.log.(history := s.log.history + [e])), Some(e))
  }

  /** The owner encodes the submission it took and hands it to the writer. */
  function Send(c: Config, s: State): State
    requires s.active.Some?
  {
    match Encode(c, s, s.active.value.payload, s.active)
    case (_, None) => Fail(s)
    case (t, Some(e)) => t.(jobs := s.jobs + [e], owner := Idle)
  }

  /** releaseSubmission. */
  function Release(s: State, x: Submission): State {
    s.(items := s.items - 1, octets := s.octets - x.size, capacity := s.capacity || s.status == Ready)
  }

  /** A write result: release what it carried, then see whether the queue needs a wakeup. */
  function HandleResult(s: State): State
    requires s.results != []
  {
    var r := s.results[0];
    var t := s.(results := s.results[1..]);
    if !r.ok then Fail(t)
    else if r.job.submission.None? then t.(owner := Waking)
    else
      var u := Release(t, r.job.submission.value);
      u.(active := if s.active == r.job.submission then None else s.active, owner := Waking)
  }

  /** reconcileConsumedEventsLocked: uncharge what the consumer has taken. */
  function Reconcile(s: State): State {
    if s.status == Closed || |s.sizes| <= |s.events| then s
    else
      var gone := |s.sizes| - |s.events|;
      s.(sizes := s.sizes[gone..], eventItems := s.eventItems - gone,
         eventBytes := s.eventBytes - Total(s.sizes[..gone], Itself))
  }

  /** publishEvent. */
  function Publish(c: Config, s: State, e: Event): (State, bool) {
    if s.status != Ready then (s, false) else Admit(c, Reconcile(s), e)
  }

  /** The event is charged first; a channel without room, which Sound states rule out, undoes the charge. */
  function Admit(c: Config, t: State, e: Event): (State, bool) {
    if t.eventItems >= c.maxEvents || e.size > c.maxEventBytes - t.eventBytes then (t, false)
    else if |t.events| == c.maxEvents then (t, false)
    else (t.(eventItems := t.eventItems + 1, eventBytes := t.eventBytes + e.size, sizes := t.sizes + [e.size],
           events := t.events + [e], log := t.log.(published := t.log.published + [e])), true)
  }

  /** The next thing a read asked for; a full write channel or event queue is terminal. */
  function Act(c: Config, s: State): State
    requires s.owner.Reading? && s.owner.todo != []
  {
    var rest := s.owner.todo[1..];
    var t := s.(owner := if rest == [] then Idle else Reading(rest));
    match s.owner.todo[0]
    case Broken => Fail(t)
    case Deliver(event) =>
      var (u, ok) := Publish(c, t, event);
      if ok then u else Fail(u)
    case Reply(payload) =>
      match Encode(c, t, payload, None)
      case (u, None) => Fail(u)
      case (u, Some(e)) =>
        if |s.jobs| == c.Lanes() then Fail(u.(log := u.log.(dropped := s.log.dropped + [e])))
        else u.(jobs := s.jobs + [e])
  }

  /** conn.Write took n bytes of the current frame, perhaps with an error. */
  function Write(s: State, n: nat, failed: bool): State
    requires s.writer.current.Some? && s.writer.count + n <= |s.writer.current.value.wire|
  {
    var w := s.writer;
    var e := w.current.value;
    var t := s.(log := s.log.(socket := s.log.socket + e.wire[w.count..w.count + n]), writer := w.(count := w.count + n));
    if failed || n == 0 then t.(writer := t.writer.(report := Some(Result(e, false)))) else t
  }

  /** Everything still queued is cleared. */
  function Discard(s: State): State {
    s.(queue := [], active := None, jobs := [], results := [], log := s.log.(dropped := s.jobs + s.log.dropped))
  }

  /** finishTerminal, once reader, writer and owner are done. */
  function Finish(s: State): State {
    Discard(s).(status := Closed, items := 0, octets := 0, sizes := [], eventItems := 0, eventBytes := 0)
  }

  // ---------------------------------------------------------------- steps

  datatype Op =
    | Submit(x: Submission)
    | BeginClose
    | OwnerWake
    | OwnerTake
    | OwnerSend
    | OwnerResult
    | OwnerCheck
    | OwnerSignal
    | OwnerRead(todo: seq<Action>)
    | OwnerAct
    | OwnerStop
    | WriterStart
    | WriterWrite(n: nat, failed: bool)
    | WriterFinish
    | WriterReport
    | WriterExit
    | Consume
    | TakeCapacity // the submitter's receive from SubmissionReady
    | Snapshot
    | FinishTerminal

  predicate Enabled(c: Config, s: State, op: Op) {
    var w := s.writer;
    match op
    case Submit(_) => true
    case BeginClose => true
    case OwnerWake => s.owner == Idle && s.wake
    case OwnerTake => s.owner == Woken
    case OwnerSend => s.owner == Took && s.active.Some? && |s.jobs| < c.Lanes()
    case OwnerResult => s.owner == Idle && s.results != []
    case OwnerCheck => s.owner == Waking
    case OwnerSignal => s.owner == Signalling
    case OwnerRead(todo) => s.owner == Idle && todo != []
    case OwnerAct => s.owner.Reading? && s.owner.todo != []
    case OwnerStop => s.owner == Idle && s.status != Ready
    case WriterStart => !w.gone && w.current.None? && w.report.None? && s.jobs != []
    case WriterWrite(n, failed) =>
      !w.gone && w.current.Some? && w.report.None? && w.count < |w.current.value.wire| &&
      w.count + n <= |w.current.value.wire|
    case WriterFinish => !w.gone && w.current.Some? && w.report.None? && w.count == |w.current.value.wire|
    case WriterReport => !w.gone && w.report.Some? && |s.results| < c.Lanes()
    case WriterExit => !w.gone && s.status != Ready && (w.report.Some? || w.current.None?)
    case Consume => s.events != []
    case TakeCapacity => s.capacity
    case Snapshot => true
    case FinishTerminal => s.status == Closing && s.owner == Stopped && w.gone
  }

  function Step(c: Config, s: State, op: Op): State {
    var w := s.writer;
    if !Enabled(c, s, op) then s
    else match op
      case Submit(x) => TrySubmit(c, s, x).0
      case BeginClose => Terminal(s)
      case OwnerWake => s.(wake := false, owner := Woken)
      case OwnerTake => Take(c, s)
      case OwnerSend => Send(c, s)
      case OwnerResult => HandleResult(s)
      case OwnerCheck => s.(owner := if s.status == Ready && s.queue != [] then Signalling else Idle)
      case OwnerSignal => s.(owner := Idle, wake := true)
      case OwnerRead(todo) => s.(owner := Reading(todo))
      case OwnerAct => Act(c, s)
      case OwnerStop => s.(owner := Stopped)
      case WriterStart => s.(jobs := s.jobs[1..], writer := Writer(Some(s.jobs[0]), 0, None, false))
      case WriterWrite(n, failed) => Write(s, n, failed)
      case WriterFinish =>
        s.(log := s.log.(written := s.log.written + [w.current.value]),
           writer := Writer(None, 0, Some(Result(w.current.value, true)), false))
      case WriterReport =>
        s.(results := s.results + [w.report.value], writer := w.(report := None, gone := !w.report.value.ok))
      case WriterExit => s.(writer := w.(report := None, gone := true))
      case Consume => s.(events := s.events[1..], log := s.log.(consumed := s.log.consumed + [s.events[0]]))
      case TakeCapacity => s.(capacity := false)
      case Snapshot => Reconcile(s)
      case FinishTerminal => Finish(s)
  }

  function Run(c: Config, s: State, ops: seq<Op>): State
    decreases |ops|
  {
    if ops == [] then s else Run(c, Step(c, s, ops[0]), ops[1..])
  }

  // ---------------------------------------------------------------- what holds between steps

  /** Bytes reach the socket in the order they were encoded. */
  predicate Ordered(s: State) {
    && s.log.history == s.log.written + (if s.writer.current.Some? then [s.writer.current.value] else []) + s.jobs + s.log.dropped
    && s.log.socket == Wires(s.log.written) +
                   (if s.writer.current.Some? && s.writer.count <= |s.writer.current.value.wire|
                    then s.writer.current.value.wire[..s.writer.count] else [])
    && (s.writer.current.Some? ==> s.writer.count <= |s.writer.current.value.wire|)
    && (s.log.dropped != [] ==> s.owner == Stopped)
  }

  /** Every frame was encoded from the state its predecessors left. */
  predicate Continuous(c: Config, history: seq<Entry>) {
    forall i | 0 <= i < |history| ::
      c.encode(Payloads(history[..i]), history[i].payload) == Some(history[i].wire)
  }

  /** Submissions are encoded in the order they were accepted. */
  predicate Fair(s: State) {
    && Submissions(s.log.history) <= s.log.accepted
    && (s.owner != Stopped ==>
          s.log.accepted == Submissions(s.log.history) + (if s.owner == Took && s.active.Some? then [s.active.value] else []) + s.queue)
    && (forall e <- s.log.history :: e.submission.Some? ==> e.payload == e.submission.value.payload)
  }

  function Jobs(results: seq<Result>): seq<Entry> {
    seq(|results|, i requires 0 <= i < |results| => results[i].job)
  }

  /** Frames between the owner's send and the owner's receipt of the result. */
  function Flight(s: State): seq<Entry> {
    Jobs(s.results) +
    (if s.writer.report.Some? then [s.writer.report.value.job]
     else if s.writer.current.Some? && !s.writer.gone then [s.writer.current.value] else []) +
    s.jobs
  }

  /** At most one submission is in flight, and it is the active one. */
  predicate Single(s: State) {
    && (s.owner == Took ==> s.active.Some? && Submissions(Flight(s)) == [])
    && (s.owner != Took ==>
          || Submissions(Flight(s)) == (if s.active.Some? then [s.active.value] else [])
          || (s.status != Ready && Submissions(Flight(s)) == []))
  }

  /** The counters charge exactly what is queued and active. */
  predicate Counted(c: Config, s: State) {
    && s.items == |s.queue| + (if s.active.Some? then 1 else 0)
    && s.octets == Total(s.queue, Charge) + (if s.active.Some? then s.active.value.size else 0)
    && s.items <= c.maxItems && s.octets <= c.maxBytes
  }

  /** A queued submission always has something that will bring the owner to it. */
  predicate NeverStranded(s: State) {
    s.status == Ready && s.queue != [] ==>
      s.wake || s.owner in {Woken, Took, Waking, Signalling} || Flight(s) != []
  }

  predicate ChannelsOK(c: Config, s: State) {
    && |s.jobs| <= c.Lanes() && |s.results| <= c.Lanes()
    && (s.owner == Took ==> |s.jobs| < c.Lanes())
    && (s.owner.Reading? ==> s.owner.todo != [])
    && (s.writer.current.Some? ==> s.writer.report == None || s.writer.report == Some(Result(s.writer.current.value, false)))
    && (s.writer.report.Some? && s.writer.current.None? ==> s.writer.report.value.ok)
    && (s.writer.gone ==> s.writer.report.None?)
    && (s.writer.gone && s.status == Ready ==>
          s.results != [] && !s.results[|s.results| - 1].ok && s.writer.current == Some(s.results[|s.results| - 1].job))
    && (s.status == Ready ==> s.owner != Stopped)
  }

  /** The event accounting: what is charged is what is buffered plus what was consumed since the last look. */
  predicate EventsOK(c: Config, s: State) {
    && s.log.published == s.log.consumed + s.events
    && |s.events| <= c.maxEvents
    && (s.status == Closed ==> s.sizes == [] && s.eventItems == 0 && s.eventBytes == 0)
    && (s.status != Closed ==>
          && |s.events| <= |s.sizes|
          && (forall i | 0 <= i < |s.events| :: s.sizes[|s.sizes| - |s.events| + i] == s.events[i].size)
          && s.eventItems == |s.sizes| <= c.maxEvents
          && s.eventBytes == Total(s.sizes, Itself) <= c.maxEventBytes)
  }

  predicate Sound(c: Config, s: State) {
    && Ordered(s) && Continuous(c, s.log.history) && Fair(s)
    && (s.status != Closed ==> Single(s) && Counted(c, s))
    && (s.status == Closed ==> s.queue == [] && s.items == 0 && s.octets == 0 && s.active == None && s.jobs == [] &&
                               s.results == [] && s.owner == Stopped && s.writer.gone)
    && NeverStranded(s) && ChannelsOK(c, s) && EventsOK(c, s)
  }
}
