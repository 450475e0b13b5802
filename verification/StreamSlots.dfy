/** The manager's stream and dial slots, and the backend workers that hold them. */
module StreamSlots {

  /** A backend worker dials, then relays; it reports each end once. */
  datatype Phase = Dialing | Relaying

  function Dialers(workers: map<nat, Phase>): set<nat> {
    set w | w in workers && workers[w] == Dialing
  }

  lemma {:induction false} Subset(a: set<nat>, b: set<nat>)
    requires a <= b
    ensures |a| <= |b|
    decreases b
  {
    if a != {} {
      var x :| x in a;
      Subset(a - {x}, b - {x});
    }
  }

  class Manager {
    const maxStreams: nat
    const maxDials: nat
    var closed: bool
    var streams: int
    var dials: int
    ghost var workers: map<nat, Phase>

    ghost predicate Valid()
      reads this
    {
      && streams == |workers| <= maxStreams
      && dials == |Dialers(workers)| <= maxDials
    }

    constructor (maxStreams: nat, maxDials: nat)
      ensures Valid() && workers == map[] && !closed
    {
      this.maxStreams, this.maxDials := maxStreams, maxDials;
      closed, streams, dials := false, 0, 0;
      workers := map[];
    }

    /** acquireStream, on behalf of a new worker. */
    method AcquireStream(ghost worker: nat) returns (ok: bool)
      requires Valid() && worker !in workers
      modifies this
      ensures Valid() && closed == old(closed)
      ensures ok == (!closed && |old(workers)| < maxStreams && |Dialers(old(workers))| < maxDials)
      ensures workers == if ok then old(workers)[worker := Dialing] else old(workers)
    {
      if closed || streams >= maxStreams || dials >= maxDials {
        return false;
      }
      streams := streams + 1;
      dials := dials + 1;
      workers := workers[worker := Dialing];
      assert Dialers(workers) == Dialers(old(workers)) + {worker};
      assert workers.Keys == old(workers.Keys) + {worker};
      return true;
    }

    /** backendDialFinished: the accounting panic cannot happen. */
    method DialFinished(ghost worker: nat)
      requires Valid() && worker in workers && workers[worker] == Dialing
      modifies this`dials, this`workers
      ensures Valid() && workers == old(workers)[worker := Relaying]
    {
      assert worker in Dialers(workers);
      assert dials > 0;
      dials := dials - 1;
      workers := workers[worker := Relaying];
      assert Dialers(workers) == Dialers(old(workers)) - {worker};
      assert workers.Keys == old(workers.Keys);
    }

    /** streamFinished: the accounting panic cannot happen. */
    method StreamFinished(ghost worker: nat)
      requires Valid() && worker in workers && workers[worker] == Relaying
      modifies this`streams, this`workers
      ensures Valid() && workers == old(workers) - {worker}
    {
      assert worker in workers.Keys;
      assert streams > 0;
      streams := streams - 1;
      workers := workers - {worker};
      assert Dialers(workers) == Dialers(old(workers));
      assert workers.Keys == old(workers.Keys) - {worker};
    }
  }
}
