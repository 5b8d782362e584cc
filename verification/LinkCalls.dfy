/**
 A station keys a CONNECT only before it is in the session, so in its peer's queue no DATA, DATA_ACK
 or floor frame of a session is ever ahead of a CONNECT of it: whoever has heard anything said in a
 session will not be called into it again.
 */
module LinkCalls {
  import opened Common
  import opened LinkStation
  import opened LinkNet
  import opened LinkSession
  import opened LinkRuns

  ghost predicate CallsFirst(q: Queue) {
    forall i, j :: 0 <= i < j < |q| && Plane(q[i].frame) && q[j].frame.Connect? ==> q[i].tag != q[j].frame.sid
  }

  ghost predicate Ordered(n: Net) {
    CallsFirst(n.out) && CallsFirst(n.inc)
  }

  /** A station keys a CONNECT only for the call it is making. */
  lemma KeysCalls(s: Station, a: Act)
    requires Shape(s) && Can(s, a)
    ensures var o := Do(s, a).out; o.Some? && o.value.Connect? ==> s.state.CONNECTING? && o.value.sid == s.sid
  {
    hide Registry.Resolve, Registry.Step, CutAt, Remembered;
  }

  lemma OrderedMore(q: Queue, more: Queue)
    requires CallsFirst(q) && |more| <= 1
    requires more != [] && more[0].frame.Connect? ==>
      forall i :: 0 <= i < |q| && Plane(q[i].frame) ==> q[i].tag != more[0].frame.sid
    ensures CallsFirst(q + more)
  {
  }

  lemma OrderedAct(n: Net, a: Act)
    requires Full(n) && Ordered(n) && CanAct(n, a)
    ensures Ordered(Played(n, a))
  {
    assert Shape(n.me) && Virgin(n);
    hide Full, RecutSafe;
    KeysCalls(n.me, a);
    hide Do, Can, Shape;
    OrderedMore(n.out, Sent(n.me, Do(n.me, a).out));
  }

  lemma OrderedMove(n: Net, m: Move)
    requires Full(n) && Ordered(n) && CanMove(n, m)
    ensures Ordered(Moved(n, m))
  {
    hide Full, Played, CanAct;
    match m
    case Mine(a) => OrderedAct(n, a);
    case Yours(a) =>
      OrderedFlips(n);
      OrderedAct(Swap(n), a);
    case LoseOut(k) =>
    case LoseInc(k) =>
  }

  lemma OrderedFlips(n: Net)
    ensures Ordered(n) <==> Ordered(Swap(n))
    ensures Full(n) ==> Full(Swap(n))
  {
  }

  lemma OrderedStart(n: Net)
    requires Start(n)
    ensures Ordered(n)
  {
  }
}
