/** Which batches a client may send: the snapshot loop of validateBatchLocked against a rule for each frame on its own. */
module SessionLegality {
  import opened Bytes
  import opened FrameCodec
  import opened DownlinkLane
  import opened SessionCore

  /** The batch opens the stream before position n. */
  predicate OpenedBefore(frames: seq<Frame>, n: nat, id: nat)
    requires n <= |frames|
  {
    exists j :: 0 <= j < n && frames[j].kind == OPEN && frames[j].streamID == id
  }

  predicate ClosedBefore(frames: seq<Frame>, n: nat, id: nat)
    requires n <= |frames|
  {
    exists j :: 0 <= j < n && frames[j].kind == CLOSE && frames[j].streamID == id
  }

  predicate KnownBefore(s: Session, frames: seq<Frame>, n: nat, id: nat)
    requires n <= |frames|
  {
    id in s.used || OpenedBefore(frames, n, id)
  }

  /** Neither end has closed the stream, as far as the client can know. */
  predicate LiveBefore(s: Session, frames: seq<Frame>, n: nat, id: nat)
    requires n <= |frames|
  {
    (id in s.streams || OpenedBefore(frames, n, id)) && !ClosedBefore(frames, n, id)
  }

  /** What the client may still send on a stream when the batch arrives. */
  function WindowAtStart(s: Session, id: nat): nat {
    if id in s.streams then s.streams[id].receiveWindow else INITIAL_STREAM_WINDOW
  }

  /**
   * Frame i is legal where it stands: it opens a stream never used, or addresses one used before; and all the DATA the
   * batch has sent on a live stream so far, this frame's included, fits the window the stream had at the start.
   */
  predicate Legal(s: Session, frames: seq<Frame>, i: nat)
    requires i < |frames|
  {
    var f := frames[i];
    if f.streamID == 0 then f.kind == PONG
    else
      && f.kind in {OPEN, DATA, WINDOW, CLOSE}
      && (f.kind == OPEN <==> !KnownBefore(s, frames, i, f.streamID))
      && (f.kind == DATA && LiveBefore(s, frames, i, f.streamID) ==>
            |DataOf(f.streamID, frames[..i + 1])| <= WindowAtStart(s, f.streamID))
  }

  // ---------------------------------------------------------------- the loop

  /** What the loop knows after n legal frames. */
  ghost predicate Knows(s: Session, frames: seq<Frame>, n: nat, c: Check)
    requires n <= |frames|
  {
    && (forall id: nat :: id in c.usedInBatch <==> id != 0 && OpenedBefore(frames, n, id))
    && (forall id: nat :: id in c.live <==> id != 0 && LiveBefore(s, frames, n, id))
    && (forall id | id in c.live :: c.live[id].receive + |DataOf(id, frames[..n])| == WindowAtStart(s, id))
  }

  lemma {:induction false} OneMoreFrame(frames: seq<Frame>, n: nat, id: nat)
    requires n < |frames|
    ensures OpenedBefore(frames, n + 1, id) <==> OpenedBefore(frames, n, id) || (frames[n].kind == OPEN && frames[n].streamID == id)
    ensures ClosedBefore(frames, n + 1, id) <==> ClosedBefore(frames, n, id) || (frames[n].kind == CLOSE && frames[n].streamID == id)
    ensures DataOf(id, frames[..n + 1]) ==
            DataOf(id, frames[..n]) + (if frames[n].kind == DATA && frames[n].streamID == id then frames[n].payload else [])
  {
    assert frames[..n + 1] == frames[..n] + [frames[n]];
    DataAppend(id, frames[..n], [frames[n]]);
    SingleFrame(id, frames[n]);
  }

  lemma {:induction false} NoDataUnopened(s: Session, frames: seq<Frame>, n: nat, id: nat)
    requires n <= |frames| && id != 0 && forall i | 0 <= i < n :: Legal(s, frames, i)
    requires !KnownBefore(s, frames, n, id)
    ensures DataOf(id, frames[..n]) == [] && !ClosedBefore(frames, n, id)
  {
    hide DataOf;
    if n > 0 {
      OneMoreFrame(frames, n - 1, id);
      NoDataUnopened(s, frames, n - 1, id);
      assert Legal(s, frames, n - 1);
    } else {
      assert frames[..0] == [];
      NoData(id);
    }
  }

  lemma {:induction false} NoData(id: nat)
    ensures DataOf(id, []) == []
  {}

  /** The loop accepts the next frame exactly when it is legal, and then knows it. */
  lemma {:induction false} ChecksNext(s: Session, frames: seq<Frame>, n: nat, c: Check)
    requires s.streams.Keys <= s.used && n < |frames| && Knows(s, frames, n, c)
    requires forall i | 0 <= i < n :: Legal(s, frames, i)
    ensures CheckFrame(s.used, c, frames[n]).Some? <==> Legal(s, frames, n)
  {
    hide DataOf, OpenedBefore, ClosedBefore;
    var f := frames[n];
    OneMoreFrame(frames, n, f.streamID);
  }

  lemma {:induction false} KnowsNext(s: Session, frames: seq<Frame>, n: nat, c: Check)
    requires s.streams.Keys <= s.used && n < |frames| && Knows(s, frames, n, c)
    requires (forall i | 0 <= i < n :: Legal(s, frames, i)) && Legal(s, frames, n)
    ensures CheckFrame(s.used, c, frames[n]).Some? && Knows(s, frames, n + 1, CheckFrame(s.used, c, frames[n]).value)
  {
    ChecksNext(s, frames, n, c);
    var (f, d) := (frames[n], CheckFrame(s.used, c, frames[n]).value);
    hide DataOf, OpenedBefore, ClosedBefore;
    forall id: nat
      ensures id in d.usedInBatch <==> id != 0 && OpenedBefore(frames, n + 1, id)
      ensures id in d.live <==> id != 0 && LiveBefore(s, frames, n + 1, id)
      ensures id in d.live ==> d.live[id].receive + |DataOf(id, frames[..n + 1])| == WindowAtStart(s, id)
    {
      OneMoreFrame(frames, n, id);
      if id == f.streamID && f.kind == OPEN && id != 0 {
        NoDataUnopened(s, frames, n, id);
      }
    }
  }

  lemma {:induction false} CheckMore(used: set<nat>, c: Check, a: seq<Frame>, f: Frame)
    ensures CheckBatch(used, c, a + [f]) == match CheckBatch(used, c, a) case None => None case Some(d) => CheckFrame(used, d, f)
    decreases |a|
  {
    hide CheckFrame;
    if a == [] {
      assert a + [f] == [f] && [f][1..] == [];
    } else {
      assert (a + [f])[1..] == a[1..] + [f];
      match CheckFrame(used, c, a[0])
      case None =>
      case Some(d) => CheckMore(used, d, a[1..], f);
    }
  }

  lemma {:induction false} StartKnows(s: Session, frames: seq<Frame>)
    ensures Knows(s, frames, 0, Snapshot(s))
  {
    assert frames[..0] == [];
    forall id ensures DataOf(id, []) == [] { NoData(id); }
  }

  lemma {:induction false} PrefixLegal(s: Session, frames: seq<Frame>, n: nat)
    requires s.streams.Keys <= s.used && n <= |frames|
    ensures var c := CheckBatch(s.used, Snapshot(s), frames[..n]);
            && (c.Some? <==> forall i | 0 <= i < n :: Legal(s, frames, i))
            && (c.Some? ==> Knows(s, frames, n, c.value))
  {
    hide Legal, Knows, CheckFrame;
    if n == 0 {
      StartKnows(s, frames);
      assert frames[..0] == [];
    } else {
      PrefixLegal(s, frames, n - 1);
      assert frames[..n] == frames[..n - 1] + [frames[n - 1]];
      CheckMore(s.used, Snapshot(s), frames[..n - 1], frames[n - 1]);
      match CheckBatch(s.used, Snapshot(s), frames[..n - 1])
      case None =>
      case Some(c) =>
        ChecksNext(s, frames, n - 1, c);
        if Legal(s, frames, n - 1) {
          KnowsNext(s, frames, n - 1, c);
        }
    }
  }

  /** A batch passes validateBatchLocked exactly when each of its frames is legal where it stands. */
  lemma {:induction false} ValidExactly(s: Session, frames: seq<Frame>)
    requires s.streams.Keys <= s.used
    ensures ValidBatch(s, frames) <==> forall i | 0 <= i < |frames| :: Legal(s, frames, i)
  {
    PrefixLegal(s, frames, |frames|);
    assert frames[..|frames|] == frames;
  }
}
