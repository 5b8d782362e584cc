/**
 Why an ACK is never taken for a chunk it does not answer, even where the chunk was cut again after the
 receiver had accepted the old cut and left: a chunk in hand only ever moves down the ladder, the old
 cut no longer fits the rung it was cut again for, and an ACK names the rung of the DATA it answers. So what was
 acknowledged is a prefix of what was accepted in every session but the blurred ones.
 */
module LinkRungs {
  import opened Common
  import opened LinkStation
  import opened LinkNet
  import opened LinkSession
  import opened LinkLanes
  import opened LinkRuns
  import opened LinkMessages
  import opened LinkOrphans
  import opened LinkHistory
  import opened LinkTerms
  import opened LinkCalls

  // -- one sender and what it knows of its receiver -----------------------------------------------------

  /** The rung a station transmits in. */
  function Rung(x: Station): nat {
    x.reg.Index(x.tx.id)
  }

  /** A rung at or above the sender's own, that carries `size` bytes. */
  predicate Above(x: Station, id: nat, size: nat) {
    var r := x.reg.Index(id);
    Rung(x) <= r < |x.reg.modes| && size <= x.reg.modes[r].chunkSize
  }

  /** A DATA frame on its way with the number of the chunk in hand: it is that chunk, in a mode it fits. */
  predicate Carries(x: Station, other: Registry, f: Frame) {
    f.Data? && x.hand == Some(Chunk(f.chunk, f.eof)) && Above(x, f.mode, |f.chunk|) && other.Supports(f.mode)
  }

  /** An ACK with that number: of a rung the accepted chunk fits, and one left behind if another is in hand. */
  predicate Answers(x: Station, accepted: Chunk, f: Frame) {
    && f.DataAck? && Above(x, f.received, |accepted.bytes|)
    && (x.hand != Some(accepted) ==> Rung(x) < x.reg.Index(f.received))
  }

  /** `x` in its session, `y` the last its receiver was in it, `other` the receiver's ladder. */
  ghost predicate Tuned(x: Station, y: Station, other: Registry, xy: Queue, yx: Queue, s: nat) {
    var m := |x.acked|;
    && DataQueued(true, x, y, xy, s) && x.acked <= y.taken
    && (forall i :: 0 <= i < |xy| && IsData(xy[i], s, m) ==> Carries(x, other, xy[i].frame))
    && (|y.taken| > m ==>
          forall i :: 0 <= i < |yx| && IsDataAck(yx[i], s, m) ==> Answers(x, y.taken[m], yx[i].frame))
  }

  lemma TunedLoss(x: Station, y: Station, other: Registry, xy: Queue, yx: Queue, s: nat, k: nat)
    requires Tuned(x, y, other, xy, yx, s)
    ensures k < |xy| ==> Tuned(x, y, other, Without(xy, k), yx, s)
    ensures k < |yx| ==> Tuned(x, y, other, xy, Without(yx, k), s)
  {
    hide Carries, Answers;
  }

  /** What is left of a queue after one act of the station that reads it. */
  predicate Rest(q: Queue, q': Queue) {
    q' == q || q' == [] || (q != [] && q' == q[1..])
  }

  /** The queues may run empty, and take in frames that are neither DATA nor ACK; only what y accepted matters of it. */
  lemma TunedAside(x: Station, y: Station, y': Station, other: Registry, xy: Queue, xy': Queue, yx: Queue,
                   more: Queue, s: nat)
    requires Tuned(x, y, other, xy, yx, s) && y'.taken == y.taken && Rest(xy, xy')
    requires |more| <= 1 && (more != [] ==> !more[0].frame.DataAck?)
    ensures Tuned(x, y', other, xy', yx + more, s)
  {
    hide Carries, Answers;
  }

  /** The sender keeps its chunk, or has none, and may step down. */
  lemma TunedStays(x: Station, x': Station, y: Station, other: Registry, xy: Queue, yx: Queue, yx': Queue,
                   more: Queue, s: nat)
    requires Tuned(x, y, other, xy, yx, s) && Counts(false, x, y) && Rest(yx, yx')
    requires x'.acked == x.acked && x'.hand == x.hand && x'.reg == x.reg && (x.hand.Some? ==> Rung(x') <= Rung(x))
    requires |more| <= 1 && (more != [] ==> !more[0].frame.Data?)
    ensures Tuned(x', y, other, xy + more, yx', s)
  {
    if x.hand.Some? {
      forall f: Frame ensures Carries(x, other, f) ==> Carries(x', other, f) {}
      forall c: Chunk, f: Frame ensures Answers(x, c, f) ==> Answers(x', c, f) {}
      hide Carries, Answers;
    } else {
      assert forall f: Frame :: !Carries(x, other, f);
      hide Carries, Answers;
    }
  }

  lemma TunedKeys(x: Station, y: Station, other: Registry, xy: Queue, yx: Queue, s: nat, f: Flight)
    requires Tuned(x, y, other, xy, yx, s) && Counts(false, x, y)
    requires IsData(f, s, |x.acked|) && Carries(x, other, f.frame)
    ensures Tuned(x, y, other, xy + [f], yx, s)
  {
    NextSeq(|x.acked| - 1);
    hide Answers, Above;
  }

  /** A first cut, or one cut again of which no copy is on its way. */
  lemma TunedCuts(x: Station, x': Station, y: Station, other: Registry, xy: Queue, yx: Queue, yx': Queue, s: nat)
    requires Tuned(x, y, other, xy, yx, s) && Counts(false, x, y) && Rest(yx, yx')
    requires x'.acked == x.acked && x'.reg == x.reg && x'.hand.Some?
    requires x.hand.Some? ==>
      && x'.tx == x.tx && x.reg.Valid() && x.tx in x.reg.modes && |x.hand.value.bytes| > x.tx.chunkSize
      && forall i :: 0 <= i < |xy| ==> !IsData(xy[i], s, |x.acked|)
    ensures Tuned(x', y, other, xy, yx', s)
  {
    if x.hand.Some? {
      var i :| 0 <= i < |x.reg.modes| && x.reg.modes[i] == x.tx;
      assert x.reg.Index(x.tx.id) == i;
    }
  }

  /** An ACK that confirms the chunk in hand answers that very chunk. */
  lemma TunedAck(x: Station, x': Station, y: Station, other: Registry, xy: Queue, yx: Queue, s: nat)
    requires Tuned(x, y, other, xy, yx, s) && Counts(false, x, y) && AcksQueued(x, y, yx, s)
    requires yx != [] && yx[0].tag == s && Confirms(x, yx[0].frame) && x.hand.Some?
    requires x.txSeq == |x.acked| % SEQ_MODULO
    requires x'.acked == x.acked + [x.hand.value] && x'.hand.None?
    ensures Tuned(x', y, other, xy, yx[1..], s)
  {
    var m := |x.acked|;
    assert IsDataAck(yx[0], s, m);
    NextSeq(m - 1);
    NextSeq(m);
    assert Answers(x, y.taken[m], yx[0].frame);
    hide Carries, Answers, Confirms;
  }

  /** The receiver takes a DATA frame, or drops it, and answers in its mode. */
  lemma TunedHears(x: Station, y: Station, y': Station, other: Registry, xy: Queue, yx: Queue, s: nat, ack: Flight)
    requires Tuned(x, y, other, xy, yx, s) && Counts(true, x, y) && AcksQueued(x, y, yx, s)
    requires xy != [] && xy[0].tag == s && xy[0].frame.Data? && y.rxExpect == |y.taken| % SEQ_MODULO
    requires var f := xy[0].frame;
      && y'.taken == (if f.seqNo == y.rxExpect then y.taken + [Chunk(f.chunk, f.eof)] else y.taken)
      && ack.frame.DataAck? && ack.frame.answered == f.seqNo
      && (other.Supports(f.mode) ==> ack.frame.received == f.mode)
    requires DataQueued(true, x, y', xy[1..], s)
    ensures Tuned(x, y', other, xy[1..], yx + [ack], s)
  {
    var f, m := xy[0].frame, |x.acked|;
    assert IsData(xy[0], s, m) || (|y.taken| == m && IsData(xy[0], s, m - 1));
    NextSeq(m - 1);
    NextSeq(m);
    if IsData(xy[0], s, m) {
      assert Carries(x, other, f);
      assert |y'.taken| == m + 1 && y'.taken[m] == Chunk(f.chunk, f.eof);
      assert Answers(x, y'.taken[m], ack.frame);
    }
    hide Carries, Answers;
    forall i | 0 <= i < |yx + [ack]| && IsDataAck((yx + [ack])[i], s, m) && |y'.taken| > m
      ensures Answers(x, y'.taken[m], (yx + [ack])[i].frame)
    {
      if i == |yx| { assert IsDataAck(ack, s, m); }
    }
  }

  // -- what one act of a station does to its sending and answering ----------------------------------------

  /** A station going on in its session, having taken `heard` from its queue and keyed `keyed`. */
  predicate Voiced(s: Station, t: Station, heard: Option<Frame>, keyed: Option<Frame>) {
    && t.reg == s.reg && (s.hand.Some? ==> Rung(t) <= Rung(s))
    && (t.taken == s.taken && t.acked == s.acked && t.hand != s.hand && s.hand.Some? ==>
          t.tx == s.tx && |s.hand.value.bytes| > s.tx.chunkSize)
    && (t.acked != s.acked ==> heard.Some? && Confirms(s, heard.value))
    && (keyed.Some? && keyed.value.Data? ==>
          && s.hand.Some? && t == s && |s.hand.value.bytes| <= s.tx.chunkSize
          && keyed.value == Data(s.txSeq, s.hand.value.eof, s.hand.value.bytes, s.tx.id))
    && (keyed.Some? && keyed.value.DataAck? ==>
          && heard.Some? && heard.value.Data? && keyed.value.answered == heard.value.seqNo
          && keyed.value.received == s.reg.Resolve(heard.value.mode).id
          && t.taken == (if heard.value.seqNo == s.rxExpect then s.taken + [Chunk(heard.value.chunk, heard.value.eof)]
                         else s.taken))
    && (t.taken != s.taken ==> keyed.Some? && keyed.value.DataAck?)
  }

  function Heard(a: Act): Option<Frame> {
    if a.Hear? then Some(a.frame) else None
  }

  lemma ActVoiced(s: Station, a: Act)
    requires Shape(s) && s.state.CONNECTED? && Can(s, a) && !a.Resume? && Do(s, a).st.state.CONNECTED?
    requires s.reg.Valid() && s.tx in s.reg.modes
    requires s.hand.Some? ==> s.task.Sending? || s.task.Failed? || s.task.Leaving?
    ensures Voiced(s, Do(s, a).st, Heard(a), Do(s, a).out)
  {
    if a.Hear? {
      hide Do, Voiced, Rung;
      HearDoes(s, a.frame);
      HearVoiced(s, a.frame);
    } else if a.Shift? {
      hide Voiced, React;
      ShiftVoiced(s, a.up);
    } else {
      QuietVoiced(s, a);
    }
  }

  lemma ShiftVoiced(s: Station, up: bool)
    requires s.reg.Valid() && s.tx in s.reg.modes && (s.hand.Some? ==> !up)
    ensures Voiced(s, StepMode(s, up), None, None)
  {
    var i :| 0 <= i < |s.reg.modes| && s.reg.modes[i] == s.tx;
    assert s.reg.Index(s.tx.id) == i;
  }

  lemma QuietVoiced(s: Station, a: Act)
    requires Shape(s) && s.state.CONNECTED? && Can(s, a) && !a.Resume? && Do(s, a).st.state.CONNECTED?
    requires !a.Hear? && !a.Shift? && (s.hand.Some? ==> s.task.Sending? || s.task.Failed? || s.task.Leaving?)
    ensures Voiced(s, Do(s, a).st, None, Do(s, a).out)
  {
    hide React, CutAt, Registry.Supports, Registry.Index;
  }

  lemma HearVoiced(s: Station, f: Frame)
    requires Shape(s) && s.state.CONNECTED? && Hearing(s) && React(s, f).st.state.CONNECTED?
    requires s.hand.Some? ==> s.task.Sending? || s.task.Failed? || s.task.Leaving?
    ensures Voiced(s, React(s, f).st, Some(f), React(s, f).out)
  {
    hide Registry.Resolve, Registry.Supports, Registry.Index, RememberMode;
  }
}
