/** The link engine's object: its sections update the fields in place, each as LinkCore says. */
module LinkEngine {
  import opened Bytes
  import opened SeqSums
  import Core = LinkCore
  import opened LinkRuns

  class Engine {
    const config: Core.Config
    var status: Core.Status
    var submissions: seq<Core.Submission>
    var pendingSubmissions: int
    var pendingSubmissionBytes: int
    var submissionQueued: bool
    var submissionCapacity: bool
    var active: Option<Core.Submission>
    var owner: Core.Owner
    var writeJobs: seq<Core.Entry>
    var writer: Core.Writer
    var writeResults: seq<Core.Result>
    var eventSizes: seq<nat>
    var events: seq<Core.Event>
    var pendingEvents: int
    var pendingEventBytes: int
    var encoded: seq<bytes> // the continuous state of the encoder: what it has encoded

    ghost var log: Core.Log

    ghost function View(): Core.State
      reads this
    {
      Core.State(status, submissions, pendingSubmissions, pendingSubmissionBytes, submissionQueued, submissionCapacity,
                 active, owner, writeJobs, writer, writeResults, eventSizes, events, pendingEvents, pendingEventBytes,
                 log)
    }

    ghost predicate Valid()
      reads this
    {
      encoded == Core.Payloads(log.history)
    }

    constructor (config: Core.Config, todo: seq<Core.Action>)
      ensures this.config == config && Valid() && View() == Core.Start(todo) && Core.Sound(config, View())
    {
      this.config := config;
      status := Core.Ready;
      submissions, pendingSubmissions, pendingSubmissionBytes := [], 0, 0;
      submissionQueued, submissionCapacity, active := false, false, None;
      owner := if todo == [] then Core.Idle else Core.Reading(todo);
      writeJobs, writer, writeResults := [], Core.Writer(None, 0, None, false), [];
      eventSizes, events, pendingEvents, pendingEventBytes, encoded := [], [], 0, 0, [];
      log := Core.EMPTY;
      new;
      hide Core.Sound;
      StartIsSound(config, todo);
    }

    method TrySubmit(x: Core.Submission) returns (verdict: Core.Verdict)
      requires Valid() && Core.Sound(config, View())
      modifies this
      ensures Valid() && (View(), verdict) == Core.TrySubmit(config, old(View()), x)
      ensures Core.Sound(config, View())
    {
      hide Core.Sound;
      StepIsSound(config, View(), Core.Submit(x));
      if status != Core.Ready {
        return Core.LinkClosed;
      }
      if x.size > config.maxBytes {
        return Core.TooLarge;
      }
      if pendingSubmissions >= config.maxItems || x.size > config.maxBytes - pendingSubmissionBytes {
        return Core.Backpressure;
      }
      submissions := submissions + [x];
      pendingSubmissions := pendingSubmissions + 1;
      pendingSubmissionBytes := pendingSubmissionBytes + x.size;
      submissionQueued := true;
      log := log.(accepted := log.accepted + [x]);
      return Core.Accepted;
    }

    method BeginTerminal()
      requires Valid()
      modifies this`status
      ensures Valid() && View() == Core.Terminal(old(View()))
      ensures Core.Sound(config, old(View())) ==> Core.Sound(config, View())
    {
      hide Core.Sound;
      if Core.Sound(config, View()) {
        StepIsSound(config, View(), Core.BeginClose);
      }
      if status == Core.Ready {
        status := Core.Closing;
      }
    }

    /** beginTerminal by the owner, which then returns. */
    method Fail()
      requires Valid()
      modifies this`status, this`owner
      ensures Valid() && View() == Core.Fail(old(View()))
    {
      BeginTerminal();
      owner := Core.Stopped;
    }

    /** bootstrap.Encode. */
    method Encode(payload: bytes, submission: Option<Core.Submission>) returns (entry: Option<Core.Entry>)
      requires Valid()
      modifies this`encoded, this`log
      ensures Valid() && (View(), entry) == Core.Encode(config, old(View()), payload, submission)
    {
      var wire := config.encode(encoded, payload);
      if wire.None? {
        return None;
      }
      var e := Core.Entry(payload, wire.value, submission);
      encoded := encoded + [payload];
      log := log.(history := log.history + [e]);
      return Some(e);
    }

    /** The owner's wakeup: take the oldest submission unless one is active or the writer is backed up. */
    method TakeSubmission()
      requires Valid() && Core.Sound(config, View()) && owner == Core.Woken
      modifies this`owner, this`active, this`submissions
      ensures Valid() && View() == Core.Step(config, old(View()), Core.OwnerTake)
      ensures Core.Sound(config, View())
    {
      hide Core.Sound;
      StepIsSound(config, View(), Core.OwnerTake);
      owner := Core.Idle;
      if active.Some? || |writeJobs| == config.Lanes() || status != Core.Ready || submissions == [] {
        return;
      }
      active := Some(submissions[0]);
      submissions := submissions[1..];
      owner := Core.Took;
    }

    method SendSubmission()
      requires Valid() && Core.Sound(config, View()) && owner == Core.Took
      modifies this
      ensures Valid() && View() == Core.Step(config, old(View()), Core.OwnerSend)
      ensures Core.Sound(config, View())
    {
      hide Core.Ordered, Core.Continuous, Core.Fair, Core.Counted, Core.NeverStranded, Core.EventsOK, Core.Flight;
      StepIsSound(config, View(), Core.OwnerSend);
      var entry := Encode(active.value.payload, active);
      if entry.None? {
        Fail();
        return;
      }
      writeJobs := writeJobs + [entry.value];
      owner := Core.Idle;
    }

    method ReleaseSubmission(x: Core.Submission)
      requires Valid()
      modifies this`pendingSubmissions, this`pendingSubmissionBytes, this`submissionCapacity
      ensures Valid() && View() == Core.Release(old(View()), x)
    {
      pendingSubmissions := pendingSubmissions - 1;
      pendingSubmissionBytes := pendingSubmissionBytes - x.size;
      if status == Core.Ready {
        submissionCapacity := true;
      }
    }

    method HandleWriteResult()
      requires Valid() && Core.Sound(config, View()) && owner == Core.Idle && writeResults != []
      modifies this
      ensures Valid() && View() == Core.Step(config, old(View()), Core.OwnerResult)
      ensures Core.Sound(config, View())
    {
      hide Core.Sound;
      StepIsSound(config, View(), Core.OwnerResult);
      var result := writeResults[0];
      writeResults := writeResults[1..];
      if !result.ok {
        Fail();
        return;
      }
      if result.job.submission.Some? {
        ReleaseSubmission(result.job.submission.value);
        if active == result.job.submission {
          active := None;
        }
      }
      owner := Core.Waking;
    }

    /** The first half of wakeSubmissionOwner: look at the queue under the lock. */
    method CheckQueue()
      requires Valid() && Core.Sound(config, View()) && owner == Core.Waking
      modifies this`owner
      ensures Valid() && View() == Core.Step(config, old(View()), Core.OwnerCheck)
      ensures Core.Sound(config, View())
    {
      hide Core.Sound;
      StepIsSound(config, View(), Core.OwnerCheck);
      owner := if status == Core.Ready && submissions != [] then Core.Signalling else Core.Idle;
    }

    method ReconcileConsumedEvents()
      requires Valid()
      modifies this`eventSizes, this`pendingEvents, this`pendingEventBytes
      ensures Valid() && View() == Core.Reconcile(old(View()))
      ensures Core.Sound(config, old(View())) ==> Core.Sound(config, View())
    {
      hide Core.Sound, Core.Payloads;
      if Core.Sound(config, View()) {
        StepIsSound(config, View(), Core.Snapshot);
      }
      var gone := |eventSizes| - |events|;
      if status == Core.Closed || gone <= 0 {
        return;
      }
      assert eventSizes[..0] == [];
      for i := 0 to gone
        invariant eventSizes == old(eventSizes)
        invariant pendingEvents == old(pendingEvents) - i
        invariant pendingEventBytes == old(pendingEventBytes) - Total(eventSizes[..i], Itself)
      {
        TotalSnoc(eventSizes[..i], eventSizes[i], Itself);
        assert eventSizes[..i + 1] == eventSizes[..i] + [eventSizes[i]];
        pendingEvents := pendingEvents - 1;
        pendingEventBytes := pendingEventBytes - eventSizes[i];
      }
      eventSizes := eventSizes[gone..];
    }

    method AdmitEvent(event: Core.Event) returns (ok: bool)
      requires Valid()
      modifies this`eventSizes, this`pendingEvents, this`pendingEventBytes, this`events, this`log
      ensures Valid() && (View(), ok) == Core.Admit(config, old(View()), event)
    {
      hide Core.Payloads;
      if pendingEvents >= config.maxEvents || event.size > config.maxEventBytes - pendingEventBytes {
        return false;
      }
      pendingEvents, pendingEventBytes := pendingEvents + 1, pendingEventBytes + event.size;
      eventSizes := eventSizes + [event.size];
      if |events| != config.maxEvents {
        events := events + [event];
        log := log.(published := log.published + [event]);
        return true;
      }
      eventSizes := eventSizes[..|eventSizes| - 1];
      pendingEvents, pendingEventBytes := pendingEvents - 1, pendingEventBytes - event.size;
      return false;
    }

    method PublishEvent(event: Core.Event) returns (ok: bool)
      requires Valid()
      modifies this`eventSizes, this`pendingEvents, this`pendingEventBytes, this`events, this`log
      ensures Valid() && (View(), ok) == Core.Publish(config, old(View()), event)
    {
      hide Core.Reconcile, Core.Admit, Core.Payloads, Valid;
      if status != Core.Ready {
        return false;
      }
      ReconcileConsumedEvents();
      ok := AdmitEvent(event);
    }

    /** A pong or protocol reply: encoded, then queued for the writer if there is room. */
    method Reply(payload: bytes) returns (ok: bool)
      requires Valid()
      modifies this`encoded, this`log, this`writeJobs
      ensures Valid()
      ensures match Core.Encode(config, old(View()), payload, None)
              case (_, None) => !ok && View() == old(View())
              case (t, Some(e)) =>
                && ok == (|old(writeJobs)| != config.Lanes())
                && View() == (if ok then t.(jobs := t.jobs + [e]) else t.(log := t.log.(dropped := t.log.dropped + [e])))
    {
      var entry := Encode(payload, None);
      if entry.None? {
        return false;
      }
      if |writeJobs| == config.Lanes() {
        log := log.(dropped := log.dropped + [entry.value]);
        return false;
      }
      writeJobs := writeJobs + [entry.value];
      return true;
    }

    /** One frame or reply of a read. */
    method HandleAction()
      requires Valid() && Core.Sound(config, View()) && owner.Reading? && owner.todo != []
      modifies this
      ensures Valid() && View() == Core.Act(config, old(View()))
      ensures Core.Sound(config, View())
    {
      hide Core.Publish, Core.Payloads, Core.Fail, Core.Sound;
      StepIsSound(config, View(), Core.OwnerAct);
      var (action, rest) := (owner.todo[0], owner.todo[1..]);
      var ok;
      owner := if rest == [] then Core.Idle else Core.Reading(rest);
      match action {
        case Broken => ok := false;
        case Deliver(event) => ok := PublishEvent(event);
        case Reply(payload) => ok := Reply(payload);
      }
      if !ok {
        Fail();
      }
    }

    /** writeWire: `takes` are the counts conn.Write returns, in order. */
    method WriteWire(takes: seq<nat>) returns (ok: bool, calls: nat)
      requires Valid() && writer.current.Some? && writer.report == None && !writer.gone && writer.count == 0
      requires forall i | 0 <= i < |takes| :: takes[i] <= |writer.current.value.wire|
      modifies this`writer, this`log
      ensures Valid() && calls <= |takes|
      ensures writer.current == old(writer.current) && writer.count <= |writer.current.value.wire|
      ensures log.socket == old(log.socket) + writer.current.value.wire[..writer.count]
      ensures ok ==> writer.count == |writer.current.value.wire|
      ensures View() == old(View()).(log := old(log).(socket := log.socket), writer := writer) && writer == old(writer).(count := writer.count)
    {
      var wire := writer.current.value.wire;
      calls := 0;
      assert wire[..0] == [];
      while writer.count < |wire|
        invariant calls <= |takes| && writer == old(writer).(count := writer.count) && writer.count <= |wire|
        invariant log.socket == old(log.socket) + wire[..writer.count]
        invariant Valid() && View() == old(View()).(log := old(log).(socket := log.socket), writer := writer)
        decreases |takes| - calls
      {
        if calls == |takes| || takes[calls] == 0 || writer.count + takes[calls] > |wire| {
          return false, calls;
        }
        var n := takes[calls];
        assert wire[..writer.count] + wire[writer.count..writer.count + n] == wire[..writer.count + n];
        log := log.(socket := log.socket + wire[writer.count..writer.count + n]);
        writer := writer.(count := writer.count + n);
        calls := calls + 1;
      }
      return true, calls;
    }

    method DiscardQueues()
      requires Valid()
      modifies this`submissions, this`active, this`writeJobs, this`writeResults, this`log
      ensures Valid() && View() == Core.Discard(old(View()))
    {
      hide Core.Payloads;
      submissions, active := [], None;
      log := log.(dropped := writeJobs + log.dropped);
      writeJobs, writeResults := [], [];
    }

    method FinishTerminal()
      requires Valid() && Core.Sound(config, View()) && Core.Enabled(config, View(), Core.FinishTerminal)
      modifies this
      ensures Valid() && View() == Core.Finish(old(View()))
      ensures Core.Sound(config, View())
    {
      hide Core.Payloads, Core.Discard, Core.Enabled, Core.Sound, Core.Finish, Core.Jobs;
      ghost var before := View();
      FinishIsSound(config, before);
      FinishIs(before);
      DiscardQueues();
      assert View() == Core.Discard(before);
      pendingSubmissions, pendingSubmissionBytes := 0, 0;
      eventSizes, pendingEvents, pendingEventBytes := [], 0, 0;
      status := Core.Closed;
      assert View() == Core.Finish(before);
    }
  }

  lemma {:induction false} FinishIsSound(c: Core.Config, s: Core.State)
    requires Core.Sound(c, s) && Core.Enabled(c, s, Core.FinishTerminal)
    ensures Core.Sound(c, Core.Finish(s))
  {
    hide Core.Sound;
    StepIsSound(c, s, Core.FinishTerminal);
  }

  lemma {:induction false} FinishIs(s: Core.State)
    ensures Core.Finish(s) == Core.Discard(s).(status := Core.Closed, items := 0, octets := 0, sizes := [], eventItems := 0, eventBytes := 0)
  {
    hide Core.Discard;
  }
}
