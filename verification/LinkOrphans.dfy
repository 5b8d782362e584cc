/**
 One direction of a session each way after one end has left it: what the station still in the
 session has accepted, and has had acknowledged, against the last state of the one that left.
 */
module LinkOrphans {
  import opened Common
  import opened LinkStation
  import opened LinkNet
  import opened LinkLanes

  /**
   `x` has left and `y` has not; `q` is what is still on its way from x to y. While `fair`, y accepts
   the chunks x cut; while `exact`, the chunks y has had acknowledged are those x accepted.
   */
  ghost predicate Orphaned(fair: bool, exact: bool, x: Station, y: Station, q: Queue, s: nat) {
    Counts(fair, x, y) && DataQueued(fair, x, y, q, s) && Counts(exact, y, x) && AcksQueued(y, x, q, s)
  }

  lemma OrphanOfPair(n: Net, s: nat)
    requires Pair(n, s)
    ensures Orphaned(n.exact, n.exact, n.you, n.me, n.inc, s)
    ensures Orphaned(n.exact, n.exact, n.me, n.you, n.out, s)
  {
  }

  lemma OrphanWeaker(fair: bool, exact: bool, fair': bool, exact': bool, x: Station, y: Station, q: Queue, s: nat)
    requires Orphaned(fair, exact, x, y, q, s) && (fair' ==> fair) && (exact' ==> exact)
    ensures Orphaned(fair', exact', x, y, q, s)
  {
  }

  lemma OrphanLoss(fair: bool, exact: bool, x: Station, y: Station, q: Queue, s: nat, k: nat)
    requires Orphaned(fair, exact, x, y, q, s) && k < |q|
    ensures Orphaned(fair, exact, x, y, Without(q, k), s)
  {
  }

  lemma OrphanTake(fair: bool, exact: bool, x: Station, y: Station, q: Queue, s: nat)
    requires Orphaned(fair, exact, x, y, q, s) && q != []
    ensures Orphaned(fair, exact, x, y, q[1..], s)
  {
    hide Orphaned;
    OrphanLoss(fair, exact, x, y, q, s, 0);
    assert Without(q, 0) == q[1..];
  }

  lemma OrphanAside(fair: bool, exact: bool, x: Station, y: Station, q: Queue, s: nat, more: Queue)
    requires Orphaned(fair, exact, x, y, q, s) && |more| <= 1 && (more != [] ==> Aside(more[0]))
    ensures Orphaned(fair, exact, x, y, q + more, s)
  {
    if more == [] {
      assert q + more == q;
    } else {
      assert q + more == q + [more[0]];
      OrphanOneAside(fair, exact, x, y, q, s, more[0]);
    }
  }

  lemma OrphanOneAside(fair: bool, exact: bool, x: Station, y: Station, q: Queue, s: nat, f: Flight)
    requires Orphaned(fair, exact, x, y, q, s) && Aside(f)
    ensures Orphaned(fair, exact, x, y, q + [f], s)
  {
  }

  /** Only the counts and what is in hand matter, and a new cut is one no peer has accepted. */
  lemma OrphanAct(fair: bool, exact: bool, x: Station, y: Station, z: Station, q: Queue, s: nat)
    requires Orphaned(fair, exact, x, y, q, s) && z.taken == y.taken && z.acked == y.acked
    requires z.hand != y.hand ==>
      z.hand.Some? && (y.hand.None? || (exact ==> |x.taken| == |y.acked|))
    ensures Orphaned(fair, exact, x, z, q, s)
  {
  }

  lemma OrphanCounts(fair: bool, exact: bool, x: Station, y: Station, q: Queue, s: nat)
    requires Orphaned(fair, exact, x, y, q, s)
    ensures y.hand.None? ==> |x.taken| == |y.acked|
  {
  }

  lemma OrphanData(fair: bool, exact: bool, x: Station, y: Station, z: Station, q: Queue, s: nat, f: Frame)
    requires Orphaned(fair, exact, x, y, q, s) && q != [] && q[0] == Flight(f, s) && f.Data?
    requires y.rxExpect == |y.taken| % SEQ_MODULO && z.acked == y.acked && z.hand == y.hand
    requires z.taken == if f.seqNo == y.rxExpect then y.taken + [Chunk(f.chunk, f.eof)] else y.taken
    ensures Orphaned(fair, exact, x, z, q[1..], s)
  {
    var m := |x.acked|;
    assert IsData(q[0], s, m) || (|y.taken| == m && IsData(q[0], s, m - 1));
    NextSeq(m - 1);
    NextSeq(m);
    OrphanTake(fair, exact, x, y, q, s);
    assert Counts(fair, x, z) by { hide AcksQueued; }
    assert DataQueued(fair, x, z, q[1..], s) by { hide AcksQueued; }
  }

  lemma OrphanAck(fair: bool, exact: bool, x: Station, y: Station, z: Station, q: Queue, s: nat, f: Frame)
    requires Orphaned(fair, exact, x, y, q, s) && q != [] && q[0] == Flight(f, s) && f.DataAck?
    requires y.txSeq == |y.acked| % SEQ_MODULO && y.hand.Some? && f.answered == y.txSeq
    requires z.acked == y.acked + [y.hand.value] && z.hand.None? && z.taken == y.taken
    ensures Orphaned(fair, exact, x, z, q[1..], s)
  {
    var m := |y.acked|;
    assert IsDataAck(q[0], s, m);
    NextSeq(m - 1);
    assert |x.taken| == m + 1 && |z.acked| == m + 1;
    OrphanTake(fair, exact, x, y, q, s);
    assert AcksQueued(z, x, q[1..], s) by { hide DataQueued; }
  }
}
