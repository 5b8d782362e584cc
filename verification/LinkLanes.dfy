/**
 One session's data and floor, as an invariant over both stations and both queues.

 A `Lane` is what holds of one direction: the chunks `x` has had acknowledged against those
 `y` has accepted, every DATA of x and every DATA_ACK to it still queued, and x's floor
 requests and grants still queued.
 */
module LinkLanes {
  import opened Common
  import opened LinkStation
  import opened LinkNet

  predicate IsDataAck(f: Flight, s: nat, k: int) {
    f.tag == s && f.frame.DataAck? && f.frame.answered == k % SEQ_MODULO
  }

  predicate IsReq(f: Flight, s: nat) {
    f.tag == s && f.frame.FloorReq?
  }

  predicate IsGrant(f: Flight, s: nat) {
    f.tag == s && f.frame.FloorGrant?
  }

  ghost predicate NoReq(q: Queue, s: nat) {
    forall i :: 0 <= i < |q| ==> !IsReq(q[i], s)
  }

  ghost predicate NoGrant(q: Queue, s: nat) {
    forall i :: 0 <= i < |q| ==> !IsGrant(q[i], s)
  }

  /** Chunk counts run one apart at most; while cuts are exact, the accepted chunks are the sender's own. */
  ghost predicate Counts(e: bool, x: Station, y: Station) {
    && |x.acked| <= |y.taken| <= |x.acked| + 1
    && (e && |y.taken| == |x.acked| ==> y.taken == x.acked)
    && (|y.taken| == |x.acked| + 1 ==> x.hand.Some? && (e ==> y.taken == x.acked + [x.hand.value]))
  }

  /** Every queued DATA is the chunk in hand or the one acknowledged before it, in that order of age. */
  ghost predicate DataQueued(e: bool, x: Station, y: Station, xy: Queue, s: nat) {
    var m := |x.acked|;
    && (forall i :: 0 <= i < |xy| && xy[i].tag == s && xy[i].frame.Data? ==>
          IsData(xy[i], s, m) || (|y.taken| == m && IsData(xy[i], s, m - 1)))
    && (|y.taken| == m ==>
          forall i :: 0 <= i < |xy| && IsData(xy[i], s, m) ==>
            x.hand.Some? && (e ==> x.hand == Some(Chunk(xy[i].frame.chunk, xy[i].frame.eof))))
    && (|y.taken| == m ==>
          forall i, j :: 0 <= i < j < |xy| && IsData(xy[i], s, m) ==> !IsData(xy[j], s, m - 1))
  }

  /** Every queued DATA_ACK answers the chunk in hand, once accepted, or the one before it. */
  ghost predicate AcksQueued(x: Station, y: Station, yx: Queue, s: nat) {
    var m := |x.acked|;
    && (forall i :: 0 <= i < |yx| && yx[i].tag == s && yx[i].frame.DataAck? ==>
          && yx[i].frame.expects == (yx[i].frame.answered + 1) % SEQ_MODULO
          && (IsDataAck(yx[i], s, m - 1) || (|y.taken| == m + 1 && IsDataAck(yx[i], s, m))))
    && (forall i, j :: 0 <= i < j < |yx| && IsDataAck(yx[i], s, m) ==> !IsDataAck(yx[j], s, m - 1))
  }

  /** A station with nothing of its own outstanding. */
  predicate Quiescent(x: Station) {
    x.hand.None? && !x.task.Asking? && !x.task.Failed? && !x.task.Leaving?
  }

  /** No request can be left over from an earlier answer to the same call. */
  predicate Clean(x: Station) {
    x.caller || x.acked != []
  }

  ghost predicate FloorHeld(x: Station, y: Station, xy: Queue, yx: Queue, s: nat) {
    && (x.role.ISS? ==> y.role.IRS? && NoGrant(xy, s))
    && (NoGrant(xy, s) || NoGrant(yx, s))
    && (Clean(x) && Quiescent(x) ==> NoReq(xy, s) && NoGrant(yx, s))
    && (Clean(x) ==> forall i, j :: 0 <= i < j < |xy| && IsReq(xy[i], s) ==> !IsGrant(xy[j], s))
    && (x.task.Sending? && x.hand.Some? ==>
          && (forall i, j :: 0 <= i < j < |xy| && IsData(xy[i], s, |x.acked|) ==> !IsReq(xy[j], s))
          && (forall i, j :: 0 <= i < j < |yx| && IsDataAck(yx[i], s, |x.acked|) ==> !IsGrant(yx[j], s))
          && (|y.taken| == |x.acked| + 1 ==> NoReq(xy, s)))
  }

  ghost predicate Lane(e: bool, x: Station, y: Station, xy: Queue, yx: Queue, s: nat) {
    Counts(e, x, y) && DataQueued(e, x, y, xy, s) && AcksQueued(x, y, yx, s) && FloorHeld(x, y, xy, yx, s)
  }

  /** A connected station's own bookkeeping. */
  ghost predicate Paced(x: Station) {
    && x.txSeq == |x.acked| % SEQ_MODULO
    && x.rxExpect == |x.taken| % SEQ_MODULO
    && !x.role.NoRole?
    && (x.task.Asking? ==> x.role.IRS?)
    && (x.task.Sending? ==> x.role.ISS?)
    && (x.hand.Some? ==> x.task.Sending? || x.task.Failed? || x.task.Leaving?)
  }

  ghost predicate Pair(n: Net, s: nat) {
    && Lane(n.exact, n.me, n.you, n.out, n.inc, s) && Lane(n.exact, n.you, n.me, n.inc, n.out, s)
    && Paced(n.me) && Paced(n.you) && n.me.caller != n.you.caller
  }

  // -- losing a frame ----------------------------------------------------------

  lemma LossLane(e: bool, x: Station, y: Station, xy: Queue, yx: Queue, s: nat, k: nat)
    requires Lane(e, x, y, xy, yx, s) && k < |xy|
    ensures Lane(e, x, y, Without(xy, k), yx, s)
  {
  }

  lemma LossLaneBack(e: bool, x: Station, y: Station, xy: Queue, yx: Queue, s: nat, k: nat)
    requires Lane(e, x, y, xy, yx, s) && k < |yx|
    ensures Lane(e, x, y, xy, Without(yx, k), s)
  {
  }

  // -- what x itself does --------------------------------------------------------

  /** A frame that is no part of the session's data or floor. */
  predicate Aside(f: Flight) {
    !f.frame.Data? && !f.frame.DataAck? && !f.frame.FloorReq? && !f.frame.FloorGrant?
  }

  lemma QuietLane(n: Net, s: nat, z: Station, q: Queue)
    requires Pair(n, s) && Paced(z)
    requires n.me.acked == z.acked && n.me.taken == z.taken && n.me.hand == z.hand && n.me.role == z.role
    requires n.me.caller == z.caller
    requires z.task.Sending? ==> n.me.task.Sending?
    requires Quiescent(z) ==> Quiescent(n.me)
    requires |q| <= 1 && (q != [] ==> Aside(q[0]))
    ensures Pair(n.(me := z, out := n.out + q), s)
  {
    if q != [] {
      AsideLane(n.exact, n.me, n.you, n.out, n.inc, s, q[0]);
      AsideLaneBack(n.exact, n.you, n.me, n.inc, n.out, s, q[0]);
      assert n.out + q == n.out + [q[0]];
    } else {
      assert n.out + q == n.out;
    }
  }

  lemma AsideLane(e: bool, x: Station, y: Station, xy: Queue, yx: Queue, s: nat, f: Flight)
    requires Lane(e, x, y, xy, yx, s) && Aside(f)
    ensures Lane(e, x, y, xy + [f], yx, s)
  {
  }

  lemma AsideLaneBack(e: bool, x: Station, y: Station, xy: Queue, yx: Queue, s: nat, f: Flight)
    requires Lane(e, x, y, xy, yx, s) && Aside(f)
    ensures Lane(e, x, y, xy, yx + [f], s)
  {
  }

  lemma KeyLane(n: Net, s: nat)
    requires Pair(n, s) && n.me.task.Sending? && n.me.hand.Some?
    ensures var f := Flight(Data(n.me.txSeq, n.me.hand.value.eof, n.me.hand.value.bytes, n.me.tx.id), s);
      Pair(n.(out := n.out + [f]), s)
  {
    var f := Flight(Data(n.me.txSeq, n.me.hand.value.eof, n.me.hand.value.bytes, n.me.tx.id), s);
    KeyLaneMine(n, s, f);
    KeyLaneYours(n, s, f);
  }

  lemma KeyLaneMine(n: Net, s: nat, f: Flight)
    requires Pair(n, s) && n.me.task.Sending? && n.me.hand.Some?
    requires f.tag == s && f.frame.Data? && f.frame.seqNo == n.me.txSeq
    requires Chunk(f.frame.chunk, f.frame.eof) == n.me.hand.value
    ensures Lane(n.exact, n.me, n.you, n.out + [f], n.inc, s)
  {
  }

  lemma KeyLaneYours(n: Net, s: nat, f: Flight)
    requires Pair(n, s) && f.frame.Data?
    ensures Lane(n.exact, n.you, n.me, n.inc, n.out + [f], s)
  {
  }

  lemma AskLane(n: Net, s: nat)
    requires Pair(n, s) && n.me.task.Asking?
    ensures Pair(n.(out := n.out + [Flight(FloorReq, s)]), s)
  {
    AskLaneMine(n, s);
    AskLaneYours(n, s);
  }

  lemma AskLaneMine(n: Net, s: nat)
    requires Pair(n, s) && n.me.task.Asking?
    ensures Lane(n.exact, n.me, n.you, n.out + [Flight(FloorReq, s)], n.inc, s)
  {
  }

  lemma AskLaneYours(n: Net, s: nat)
    requires Pair(n, s)
    ensures Lane(n.exact, n.you, n.me, n.inc, n.out + [Flight(FloorReq, s)], s)
  {
  }

  /** A first cut, or the next one. */
  lemma CutLane(n: Net, s: nat, z: Station)
    requires Pair(n, s) && Quiescent(n.me) && n.me.role.ISS? && Paced(z)
    requires n.me.acked == z.acked && n.me.taken == z.taken && z.hand.Some? && n.me.role == z.role
        && n.me.caller == z.caller
    ensures Pair(n.(me := z), s)
  {
  }

  /** A re-cut; exact while no copy of the old cut was accepted or is queued. */
  lemma RecutLane(n: Net, s: nat, z: Station, e: bool)
    requires Pair(n, s) && n.me.task.Sending? && n.me.hand.Some? && Paced(z)
    requires z == n.me.(hand := z.hand) && z.hand.Some?
    requires e ==> n.exact && |n.you.taken| == |n.me.acked|
                   && forall i :: 0 <= i < |n.out| ==> !IsData(n.out[i], s, |n.me.acked|)
    ensures Pair(n.(me := z, exact := e), s)
  {
  }

  // -- what x does with a frame from its queue ----------------------------------

  /** Dropping the packet at the head of the queue. */
  lemma DropLane(n: Net, s: nat)
    requires Pair(n, s) && n.inc != []
    ensures Pair(n.(inc := n.inc[1..]), s)
  {
    assert Without(n.inc, 0) == n.inc[1..];
    LossLane(n.exact, n.you, n.me, n.inc, n.out, s, 0);
    LossLaneBack(n.exact, n.me, n.you, n.out, n.inc, s, 0);
  }

  /**
   The DATA at the head of the queue has the number the receiver waits for exactly when it is the chunk
   its sender still has in hand, not yet accepted; any other is the chunk accepted last, sent again.
   */
  lemma AcceptsInHand(n: Net, s: nat, f: Frame)
    requires Pair(n, s) && n.inc != [] && n.inc[0] == Flight(f, s) && f.Data?
    ensures f.seqNo == n.me.rxExpect <==> |n.me.taken| == |n.you.acked| && IsData(n.inc[0], s, |n.you.acked|)
    ensures f.seqNo == n.me.rxExpect ==>
      n.you.hand.Some? && (n.exact ==> n.you.hand.value == Chunk(f.chunk, f.eof))
    ensures f.seqNo != n.me.rxExpect ==> IsData(n.inc[0], s, |n.me.taken| - 1)
  {
    var m := |n.you.acked|;
    assert IsData(n.inc[0], s, m) || (|n.me.taken| == m && IsData(n.inc[0], s, m - 1));
    NextSeq(m - 1);
    NextSeq(m);
  }

  /** Taking in a DATA frame, or dropping it as a duplicate, and answering it. */
  lemma DataLane(n: Net, s: nat, z: Station, f: Frame, ack: Frame)
    requires Pair(n, s) && n.inc != [] && n.inc[0] == Flight(f, s) && f.Data? && n.me.hand.None? && Paced(z)
    requires n.me.acked == z.acked && n.me.hand == z.hand && n.me.role == z.role && n.me.caller == z.caller
    requires z.task.Sending? ==> n.me.task.Sending?
    requires Quiescent(z) ==> Quiescent(n.me)
    requires z.taken == if f.seqNo == n.me.rxExpect then n.me.taken + [Chunk(f.chunk, f.eof)] else n.me.taken
    requires ack.DataAck? && ack.answered == f.seqNo && ack.expects == |z.taken| % SEQ_MODULO
    ensures Pair(n.(me := z, inc := n.inc[1..], out := n.out + [Flight(ack, s)]), s)
  {
    DataLaneTheirs(n, s, z, f, ack);
    DataLaneOwn(n, s, z, ack);
  }

  lemma DataLaneOwn(n: Net, s: nat, z: Station, ack: Frame)
    requires Pair(n, s) && n.inc != [] && n.me.hand.None? && ack.DataAck?
    requires n.me.acked == z.acked && n.me.hand == z.hand && n.me.role == z.role && n.me.caller == z.caller
    requires z.task.Sending? ==> n.me.task.Sending?
    requires Quiescent(z) ==> Quiescent(n.me)
    ensures Lane(n.exact, z, n.you, n.out + [Flight(ack, s)], n.inc[1..], s)
  {
    assert Without(n.inc, 0) == n.inc[1..];
    LossLaneBack(n.exact, n.me, n.you, n.out, n.inc, s, 0);
    assert Lane(n.exact, n.me, n.you, n.out, n.inc[1..], s);
    hide Pair;
    OwnLane(n.exact, n.me, z, n.you, n.out, n.inc[1..], s, ack);
  }

  /** A station that only took DATA in, and the answer it keyed, in its own lane. */
  lemma OwnLane(e: bool, x: Station, z: Station, y: Station, xy: Queue, yx: Queue, s: nat, ack: Frame)
    requires Lane(e, x, y, xy, yx, s) && x.hand.None? && ack.DataAck?
    requires x.acked == z.acked && x.hand == z.hand && x.role == z.role && x.caller == z.caller
    requires (z.task.Sending? ==> x.task.Sending?) && (Quiescent(z) ==> Quiescent(x))
    ensures Lane(e, z, y, xy + [Flight(ack, s)], yx, s)
  {
    var xy' := xy + [Flight(ack, s)];
    assert Counts(e, z, y) && AcksQueued(z, y, yx, s) by { hide DataQueued, FloorHeld; }
    assert DataQueued(e, z, y, xy', s) by { hide AcksQueued, FloorHeld; }
    assert FloorHeld(z, y, xy', yx, s) by { hide AcksQueued, DataQueued; }
  }

  lemma DataLaneTheirs(n: Net, s: nat, z: Station, f: Frame, ack: Frame)
    requires Pair(n, s) && n.inc != [] && n.inc[0] == Flight(f, s) && f.Data? && n.me.hand.None? && Paced(z)
    requires n.me.acked == z.acked && n.me.hand == z.hand && n.me.role == z.role && n.me.caller == z.caller
    requires z.taken == if f.seqNo == n.me.rxExpect then n.me.taken + [Chunk(f.chunk, f.eof)] else n.me.taken
    requires ack.DataAck? && ack.answered == f.seqNo && ack.expects == |z.taken| % SEQ_MODULO
    ensures Lane(n.exact, n.you, z, n.inc[1..], n.out + [Flight(ack, s)], s)
  {
    var m := |n.you.acked|;
    var xy, yx := n.inc[1..], n.out + [Flight(ack, s)];
    assert n.inc[0].frame == f;
    assert IsData(n.inc[0], s, m) || (|n.me.taken| == m && IsData(n.inc[0], s, m - 1));
    assert Counts(n.exact, n.you, z) && DataQueued(n.exact, n.you, z, xy, s);
    AcksAfterData(n, s, z, f, ack);
    FloorAfterData(n, s, z, f, ack);
  }

  lemma AcksAfterData(n: Net, s: nat, z: Station, f: Frame, ack: Frame)
    requires Pair(n, s) && n.inc != [] && n.inc[0] == Flight(f, s) && f.Data? && Paced(z)
    requires z.taken == if f.seqNo == n.me.rxExpect then n.me.taken + [Chunk(f.chunk, f.eof)] else n.me.taken
    requires ack.DataAck? && ack.answered == f.seqNo && ack.expects == |z.taken| % SEQ_MODULO
    ensures AcksQueued(n.you, z, n.out + [Flight(ack, s)], s)
  {
    var m := |n.you.acked|;
    assert IsData(n.inc[0], s, m) || (|n.me.taken| == m && IsData(n.inc[0], s, m - 1));
    NextSeq(m - 1);
    NextSeq(m);
    AckAppended(n.exact, n.you, n.me, z, n.out, s, ack);
  }

  lemma AckAppended(e: bool, x: Station, y: Station, z: Station, yx: Queue, s: nat, ack: Frame)
    requires AcksQueued(x, y, yx, s) && Counts(e, x, y)
    requires ack.DataAck? && ack.expects == (ack.answered + 1) % SEQ_MODULO
    requires |z.taken| == |y.taken| || (|y.taken| == |x.acked| && |z.taken| == |x.acked| + 1)
    requires ack.answered == (|z.taken| - 1) % SEQ_MODULO
    ensures AcksQueued(x, z, yx + [Flight(ack, s)], s)
  {
    NextSeq(|x.acked| - 1);
  }

  lemma NextSeq(k: int)
    ensures (k % SEQ_MODULO + 1) % SEQ_MODULO == (k + 1) % SEQ_MODULO != k % SEQ_MODULO
  {
  }

  lemma FloorAfterData(n: Net, s: nat, z: Station, f: Frame, ack: Frame)
    requires Pair(n, s) && n.inc != [] && n.inc[0] == Flight(f, s) && f.Data? && Paced(z)
    requires n.me.acked == z.acked && n.me.role == z.role && n.me.caller == z.caller
    requires z.taken == if f.seqNo == n.me.rxExpect then n.me.taken + [Chunk(f.chunk, f.eof)] else n.me.taken
    requires ack.DataAck? && ack.answered == f.seqNo
    ensures FloorHeld(n.you, z, n.inc[1..], n.out + [Flight(ack, s)], s)
  {
    var m := |n.you.acked|;
    assert IsData(n.inc[0], s, m) || (|n.me.taken| == m && IsData(n.inc[0], s, m - 1));
  }

  /** Granting the floor from recv_message. */
  lemma GrantLane(n: Net, s: nat, z: Station)
    requires Pair(n, s) && n.inc != [] && n.inc[0] == Flight(FloorReq, s) && n.me.task.Receiving?
    requires z == n.me.(role := IRS)
    ensures Pair(n.(me := z, inc := n.inc[1..], out := n.out + [Flight(FloorGrant, s)]), s)
  {
    var n' := n.(me := z, inc := n.inc[1..], out := n.out + [Flight(FloorGrant, s)]);
    assert IsReq(n.inc[0], s);
    assert NoGrant(n.inc[1..], s) by {
      if !NoGrant(n.inc, s) {
        assert Clean(n.you);
      }
    }
    DropLane(n, s);
    GrantLaneMine(n, s, z);
    GrantLaneYours(n, s, z);
  }

  lemma GrantLaneYours(n: Net, s: nat, z: Station)
    requires n.inc != [] && Pair(n, s) && Pair(n.(inc := n.inc[1..]), s) && n.inc[0] == Flight(FloorReq, s)
    requires n.me.task.Receiving? && z == n.me.(role := IRS) && NoGrant(n.inc[1..], s)
    ensures Lane(n.exact, n.you, z, n.inc[1..], n.out + [Flight(FloorGrant, s)], s)
  {
    assert IsReq(n.inc[0], s);
  }

  lemma GrantLaneMine(n: Net, s: nat, z: Station)
    requires Pair(n, s) && n.inc != [] && n.inc[0] == Flight(FloorReq, s) && n.me.task.Receiving?
    requires z == n.me.(role := IRS) && NoGrant(n.inc[1..], s)
    ensures Lane(n.exact, z, n.you, n.out + [Flight(FloorGrant, s)], n.inc[1..], s)
  {
    LossLaneBack(n.exact, n.me, n.you, n.out, n.inc, s, 0);
    assert Without(n.inc, 0) == n.inc[1..];
    GrantingLane(n.exact, n.me, n.you, n.out, n.inc[1..], s, z);
  }

  lemma GrantingLane(e: bool, x: Station, y: Station, xy: Queue, yx: Queue, s: nat, z: Station)
    requires Lane(e, x, y, xy, yx, s) && x.task.Receiving? && Paced(x) && z == x.(role := IRS) && NoGrant(yx, s)
    ensures Lane(e, z, y, xy + [Flight(FloorGrant, s)], yx, s)
  {
  }

  /** Being granted the floor: the peer has given it up, and no grant of ours is on its way. */
  lemma GrantedLane(n: Net, s: nat, z: Station)
    requires Pair(n, s) && n.inc != [] && n.inc[0] == Flight(FloorGrant, s) && n.me.task.Asking? && Paced(z)
    requires z == n.me.(role := ISS, task := z.task, hand := z.hand) && z.task.Sending? && z.hand.Some?
        && n.me.hand.None?
    ensures Pair(n.(me := z, inc := n.inc[1..]), s)
  {
    DropLane(n, s);
    GrantedLaneMine(n, s, z);
    GrantedLaneYours(n, s, z);
  }

  lemma GrantedLaneMine(n: Net, s: nat, z: Station)
    requires n.inc != [] && Pair(n, s) && Pair(n.(inc := n.inc[1..]), s) && n.inc[0] == Flight(FloorGrant, s)
    requires n.me.task.Asking? && z.task.Sending? && z.hand.Some? && n.me.hand.None?
    requires z == n.me.(role := ISS, task := z.task, hand := z.hand)
    ensures Lane(n.exact, z, n.you, n.out, n.inc[1..], s)
  {
    assert IsGrant(n.inc[0], s);
  }

  lemma GrantedLaneYours(n: Net, s: nat, z: Station)
    requires n.inc != [] && Pair(n, s) && Pair(n.(inc := n.inc[1..]), s) && n.inc[0] == Flight(FloorGrant, s)
    requires n.me.task.Asking? && z.task.Sending? && z.hand.Some? && n.me.hand.None?
    requires z == n.me.(role := ISS, task := z.task, hand := z.hand)
    ensures Lane(n.exact, n.you, z, n.inc[1..], n.out, s)
  {
    assert IsGrant(n.inc[0], s);
  }

  /** An ACK that names the chunk in flight can only answer that chunk. */
  lemma AckLane(n: Net, s: nat, z: Station, f: Frame)
    requires Pair(n, s) && n.inc != [] && n.inc[0] == Flight(f, s) && f.DataAck? && Paced(z)
    requires n.me.task.Sending? && n.me.hand.Some? && f.answered == n.me.txSeq
    requires z.acked == n.me.acked + [n.me.hand.value] && z.hand.None? && z.task.Sending?
    requires n.me.taken == z.taken && n.me.role == z.role && n.me.caller == z.caller
    ensures Pair(n.(me := z, inc := n.inc[1..]), s)
  {
    var n' := n.(me := z, inc := n.inc[1..]);
    var m := |n.me.acked|;
    assert IsDataAck(n.inc[0], s, m);
    assert |n.you.taken| == m + 1;
    assert (m + 1) - 1 == m;
    DropLane(n, s);
    AckLaneMine(n, s, z, f);
    assert Lane(n'.exact, n'.you, n'.me, n'.inc, n'.out, s);
  }

  lemma AckLaneMine(n: Net, s: nat, z: Station, f: Frame)
    requires Pair(n, s) && n.inc != [] && n.inc[0] == Flight(f, s) && f.DataAck? && Paced(z)
    requires n.me.task.Sending? && n.me.hand.Some? && f.answered == n.me.txSeq
    requires z.acked == n.me.acked + [n.me.hand.value] && z.hand.None? && z.task.Sending?
    requires n.me.taken == z.taken && n.me.role == z.role && n.me.caller == z.caller
    ensures Lane(n.exact, z, n.you, n.out, n.inc[1..], s)
  {
    var m := |n.me.acked|;
    assert IsDataAck(n.inc[0], s, m);
    assert |n.you.taken| == m + 1 && |z.acked| == m + 1;
    assert Counts(n.exact, z, n.you);
    assert DataQueued(n.exact, z, n.you, n.out, s);
    assert AcksQueued(z, n.you, n.inc[1..], s);
    assert FloorHeld(z, n.you, n.out, n.inc[1..], s);
  }
}
