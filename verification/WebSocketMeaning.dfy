/** What a stream of frames that must not be accepted whole decodes to, and what ends a stream. */
module WebSocketMeaning {
  import opened Bytes
  import opened WebSocketFrames

  /**
   * What RFC 6455, section 5, forbids a client, and text messages, which the relay does not take: a reserved bit, no
   * mask, an opcode without meaning, a control frame in fragments or above 125 bytes, a continuation of nothing, a
   * new message within one.
   */
  predicate Forbidden(m: Machine, h: Head) {
    || h.rsv || !h.masked
    || h.opcode !in {0, 2, 8, 9, 10}
    || (h.opcode >= 8 && (!h.fin || h.length > 125))
    || (h.opcode == 0 && !m.fragmented)
    || (h.opcode == 2 && m.fragmented)
  }

  lemma {:induction false} ForbiddenExactly(p: Policy, m: Machine, h: Head)
    requires MachineOK(m) && (h.masked ==> |h.mask| == 4)
    ensures Prepare(p, m, h) == Refused(Protocol) <==> Forbidden(m, h)
  {}

  /** A frame that is not accepted ends the stream where it stands. */
  lemma {:induction false} OneRefused(p: Policy, m: Machine, f: ClientFrame, tail: bytes)
    requires FrameOK(f) && MachineOK(m) && m.pending.None? && !m.closed
    requires Prepare(p, m, HeadOf(f)).Refused?
    ensures Run(p, m, EncodeFrame(f) + tail).error == Some(Prepare(p, m, HeadOf(f)).error)
    ensures Run(p, m, EncodeFrame(f) + tail).messages == []
  {
    hide Apply, Unmask, ParseHead, EncodeHead, HeadOK, Nodes;
    var masked := Unmask(f.payload, f.mask, 0);
    assert EncodeFrame(f) + tail == EncodeHead(f) + (masked + tail);
    EncodedHeadParses(f, masked + tail);
  }

  /** The machine between frames. */
  function Between(a: Assembly, buffers: nat, owned: nat, asked: nat): Machine {
    Machine(a.open, a.so, buffers, owned, asked, None, false)
  }

  predicate NoClose(fs: seq<ClientFrame>) {
    forall i | 0 <= i < |fs| :: FrameOK(fs[i]) && fs[i].opcode != CLOSE
  }

  /** The first frame may be sent. */
  predicate FirstSendable(p: Policy, a: Assembly, buffers: nat, owned: nat, asked: nat, f: ClientFrame) {
    Sendable(p, a, buffers, owned, asked, [f])
  }

  lemma {:induction false} FirstIs(p: Policy, a: Assembly, buffers: nat, owned: nat, asked: nat, f: ClientFrame)
    ensures var m := Between(a, buffers, owned, asked);
            FirstSendable(p, a, buffers, owned, asked, f) <==>
            && FrameOK(f) && f.opcode != CLOSE
            && (!Control(f.opcode) ==>
                  && (f.opcode == CONTINUATION <==> a.open) && |a.so| + |f.payload| <= p.maxMessage
                  && p.grants(asked, owned + |f.payload| + Nodes(m, |f.payload|) * p.fragmentBytes)
                  && (f.fin ==> a.so + f.payload != []))
  {
    hide Nodes, Chunks, FrameOK;
    var one := [f];
    var grown := owned + |f.payload| + Nodes(Between(a, buffers, owned, asked), |f.payload|) * p.fragmentBytes;
    NothingSendable(p, a, buffers, owned, asked, one[1..]);
    NothingSendable(p, Assembly(false, []), 0, 0, asked + 1, one[1..]);
    NothingSendable(p, Assembly(true, a.so + f.payload), buffers + Chunks(|f.payload|), grown, asked + 1, one[1..]);
  }

  lemma {:induction false} NothingSendable(p: Policy, a: Assembly, buffers: nat, owned: nat, asked: nat, fs: seq<ClientFrame>)
    requires |fs| == 0
    ensures Sendable(p, a, buffers, owned, asked, fs)
  {}

  lemma {:induction false} FirstExactly(p: Policy, a: Assembly, buffers: nat, owned: nat, asked: nat, f: ClientFrame, tail: bytes)
    requires FrameOK(f) && f.opcode != CLOSE
    ensures FirstSendable(p, a, buffers, owned, asked, f) ||
            Run(p, Between(a, buffers, owned, asked), EncodeFrame(f) + tail).error.Some?
  {
    hide ParseHead, Unmask, EncodeFrame, Nodes, Run, Chunks;
    var m := Between(a, buffers, owned, asked);
    hide Sendable, FirstSendable;
    FirstIs(p, a, buffers, owned, asked, f);
    if Prepare(p, m, HeadOf(f)).Refused? {
      OneRefused(p, m, f, tail);
    } else {
      OneFrame(p, m, f, tail);
    }
  }

  /**
   * Frames without a close are decoded to the end exactly when they are valid in sequence and within the limits: the
   * first one that is not stops the stream.
   */
  lemma {:induction false} SendableExactly(p: Policy, a: Assembly, buffers: nat, owned: nat, asked: nat, fs: seq<ClientFrame>)
    requires NoClose(fs)
    ensures Sendable(p, a, buffers, owned, asked, fs) <==>
            Run(p, Between(a, buffers, owned, asked), EncodeFrames(fs)).error.None?
    decreases |fs|
  {
    hide ParseHead, Unmask, EncodeFrame, Nodes, Run, Chunks, FirstSendable;
    var m := Between(a, buffers, owned, asked);
    if fs == [] {
      NothingToRead(p, m);
    } else {
      var (f, rest) := (fs[0], fs[1..]);
      assert EncodeFrames(fs) == EncodeFrame(f) + EncodeFrames(rest);
      FirstIs(p, a, buffers, owned, asked, f);
      FirstExactly(p, a, buffers, owned, asked, f, EncodeFrames(rest));
      if FirstSendable(p, a, buffers, owned, asked, f) {
        var (b, _) := Means(a, f);
        var grown := owned + |f.payload| + Nodes(m, |f.payload|) * p.fragmentBytes;
        OneFrame(p, m, f, EncodeFrames(rest));
        if Control(f.opcode) {
          SendableExactly(p, a, buffers, owned, asked, rest);
        } else if f.fin {
          SendableExactly(p, b, 0, 0, asked + 1, rest);
        } else {
          SendableExactly(p, b, buffers + Chunks(|f.payload|), grown, asked + 1, rest);
        }
      }
    }
  }

  /**
   * A close after valid frames: with a valid payload it is the last message, and anything behind it is an error; with
   * any other it is an error itself.
   */
  lemma {:induction false} CloseMeans(p: Policy, a: Assembly, buffers: nat, owned: nat, asked: nat, fs: seq<ClientFrame>,
                                      close: ClientFrame, tail: bytes)
    requires Sendable(p, a, buffers, owned, asked, fs) && FrameOK(close) && close.opcode == CLOSE
    ensures forall i | 0 <= i < |fs| :: FrameOK(fs[i])
    ensures var o := Run(p, Between(a, buffers, owned, asked), EncodeFrames(fs) + (EncodeFrame(close) + tail));
            if p.closeOK(close.payload) then
              && o.messages == MeansAll(a, fs) + [Message(CLOSE, close.payload)] && o.m.closed && o.rest == tail
              && o.error == if tail == [] then None else Some(Protocol)
            else o.messages == MeansAll(a, fs) && o.error == Some(Protocol) && o.rest == tail
    decreases |fs|
  {
    hide ParseHead, Unmask, EncodeFrame, Nodes, Run, Chunks;
    var m := Between(a, buffers, owned, asked);
    if fs == [] {
      assert EncodeFrames(fs) + (EncodeFrame(close) + tail) == EncodeFrame(close) + tail;
      CloseFirst(p, m, close, tail);
    } else {
      var (f, rest) := (fs[0], fs[1..]);
      var (b, _) := Means(a, f);
      var grown := owned + |f.payload| + Nodes(m, |f.payload|) * p.fragmentBytes;
      if Control(f.opcode) {
        CloseMeans(p, a, buffers, owned, asked, rest, close, tail);
      } else if f.fin {
        CloseMeans(p, b, 0, 0, asked + 1, rest, close, tail);
      } else {
        CloseMeans(p, b, buffers + Chunks(|f.payload|), grown, asked + 1, rest, close, tail);
      }
      assert EncodeFrames(fs) + (EncodeFrame(close) + tail) == EncodeFrame(f) + (EncodeFrames(rest) + (EncodeFrame(close) + tail));
      OneFrame(p, m, f, EncodeFrames(rest) + (EncodeFrame(close) + tail));
    }
  }

  lemma {:induction false} CloseFirst(p: Policy, m: Machine, close: ClientFrame, tail: bytes)
    requires MachineOK(m) && m.pending.None? && !m.closed && FrameOK(close) && close.opcode == CLOSE
    ensures var o := Run(p, m, EncodeFrame(close) + tail);
            if p.closeOK(close.payload) then
              && o.messages == [Message(CLOSE, close.payload)] && o.m.closed && o.rest == tail
              && o.error == if tail == [] then None else Some(Protocol)
            else o.messages == [] && o.error == Some(Protocol) && o.rest == tail
  {
    hide ParseHead, Unmask, EncodeFrame, Nodes, Run, Chunks;
    OneFrame(p, m, close, tail);
    if p.closeOK(close.payload) {
      AfterClose(p, m.(closed := true), tail);
    }
  }

  lemma {:induction false} AfterClose(p: Policy, m: Machine, tail: bytes)
    requires MachineOK(m) && m.closed
    ensures Run(p, m, tail) == Outcome([], m, tail, if tail == [] then None else Some(Protocol))
  {}
}
