/**
 What every run of the link keeps: session identity (LinkSession), the lanes of the session
 both stations are in (LinkLanes), and what they negotiated.
 */
module LinkRuns {
  import opened Common
  import opened LinkStation
  import opened LinkNet
  import opened LinkSession
  import opened LinkLanes

  /** A listener as it will be the moment it accepts. */
  function Newborn(s: Station): Station {
    s.(role := IRS, task := Resting, hand := None, caller := false,
       txSeq := 0, rxExpect := 0, acked := [], taken := [])
  }

  /** The other end of this station's session, or the listener about to become it. */
  ghost function Partner(n: Net): Option<Station> {
    if !n.me.state.CONNECTED? then None
    else if n.you.state.CONNECTED? then Some(n.you)
    else if n.me.caller && n.you.task.Answering? && Called(n.out) then Some(Newborn(n.you))
    else None
  }

  ghost predicate Linked(n: Net) {
    && (n.me.state.CONNECTED? ==> Paced(n.me))
    && (Partner(n).Some? ==> Pair(n.(you := Partner(n).value), n.me.sid))
  }

  /** Until the caller has its answer, nothing of the new session but floor requests is on its way. */
  ghost predicate Virgin(n: Net) {
    n.me.state.CONNECTING? ==>
      && (forall i :: 0 <= i < |n.out| && Plane(n.out[i].frame) ==> n.out[i].tag != n.me.sid)
      && (forall i :: 0 <= i < |n.inc| && Plane(n.inc[i].frame) && n.inc[i].tag == n.me.sid
            ==> n.inc[i].frame.FloorReq?)
      && (n.you.state.CONNECTED? && n.you.sid == n.me.sid ==>
            n.you.taken == [] && n.you.acked == [] && n.you.role.IRS? && n.you.hand.None? && !n.you.task.Sending?)
  }

  /** Both ends hold the modes of one and the same CONNECT_ACK, whichever copy arrived. */
  ghost predicate Agreed(n: Net) {
    && (n.me.task.Calling? && n.me.task.body.Connect? ==>
        var body := n.me.task.body;
        && (forall i :: 0 <= i < |n.out| && IsCall(n.out[i], n.me.sid) ==> n.out[i].frame == body)
        && (forall i :: 0 <= i < |n.inc| && IsAck(n.inc[i], n.me.sid) ==> n.inc[i].frame == Answer(n.you, body))
        && (n.you.state.CONNECTED? && n.you.sid == n.me.sid ==>
              n.you.ackBody == Some(Answer(n.you, body))
              && n.you.up == Answer(n.you, body).accepted && n.you.down == Answer(n.you, body).own))
    && (n.me.state.CONNECTED? && n.me.caller ==>
        && (n.you.state.CONNECTED? ==> n.you.up == n.me.up && n.you.down == n.me.down)
        && (n.you.task.Answering? ==>
              forall i :: 0 <= i < |n.out| && IsCall(n.out[i], n.me.sid) ==>
                Answer(n.you, n.out[i].frame).accepted == n.me.up && Answer(n.you, n.out[i].frame).own == n.me.down))
  }

  ghost predicate Half(n: Net) {
    Linked(n) && Virgin(n) && Agreed(n)
  }

  ghost predicate Full(n: Net) {
    Inv(n) && Half(n) && Half(Swap(n))
  }

  // -- runs in which failed calls end their session ----------------------------------

  ghost predicate Obedient(n: Net, a: Act) {
    !a.Resume?
  }

  ghost predicate ObedientMove(n: Net, m: Move) {
    match m
    case Mine(a) => Obedient(n, a)
    case Yours(a) => Obedient(Swap(n), a)
    case _ => true
  }

  ghost predicate ReachesObediently(n: Net, moves: seq<Move>, last: Net)
    decreases |moves|
  {
    if moves == [] then n == last
    else CanMove(n, moves[0]) && ObedientMove(n, moves[0])
         && ReachesObediently(Moved(n, moves[0]), moves[1..], last)
  }

  // -- losing a frame -------------------------------------------------------------

  lemma LossFull(n: Net, k: nat)
    requires Full(n) && k < |n.out|
    ensures Full(n.(out := Without(n.out, k)))
  {
    LossKeeps(n, k);
    LossLinked(n, k);
    LossRest(n, k);
  }

  lemma LossLinked(n: Net, k: nat)
    requires Linked(n) && Linked(Swap(n)) && k < |n.out|
    ensures Linked(n.(out := Without(n.out, k))) && Linked(Swap(n.(out := Without(n.out, k))))
  {
    var n' := n.(out := Without(n.out, k));
    Thinner(n.out, k);
    if Partner(n').Some? {
      var p := Partner(n').value;
      assert Partner(n) == Some(p);
      LossLane(n.exact, n.me, p, n.out, n.inc, n.me.sid, k);
      LossLaneBack(n.exact, p, n.me, n.inc, n.out, n.me.sid, k);
    }
    if Partner(Swap(n')).Some? {
      var p := Partner(Swap(n')).value;
      assert Partner(Swap(n)) == Some(p);
      LossLaneBack(n.exact, n.you, p, n.inc, n.out, n.you.sid, k);
      LossLane(n.exact, p, n.you, n.out, n.inc, n.you.sid, k);
    }
  }

  lemma LossRest(n: Net, k: nat)
    requires Virgin(n) && Agreed(n) && Virgin(Swap(n)) && Agreed(Swap(n)) && k < |n.out|
    ensures Virgin(n.(out := Without(n.out, k))) && Virgin(Swap(n.(out := Without(n.out, k))))
    ensures Agreed(n.(out := Without(n.out, k))) && Agreed(Swap(n.(out := Without(n.out, k))))
  {
  }

  lemma TakeFull(n: Net)
    requires Full(n) && n.inc != []
    ensures Full(n.(inc := n.inc[1..]))
  {
    LossFull(Swap(n), 0);
    assert Without(n.inc, 0) == n.inc[1..];
  }

  // -- a connected station acting inside its session ---------------------------------

  predicate Tagged(q: Queue, s: nat) {
    forall i :: 0 <= i < |q| && Plane(q[i].frame) ==> q[i].tag == s
  }

  /** Acts that key, cut or change what the station is waiting for. */
  lemma ActPair(n: Net, a: Act)
    requires Pair(n, n.me.sid) && CanAct(n, a) && Quiet(a) && n.me.state.CONNECTED? && Shape(n.me)
    requires !a.Resume?
    requires a.Recut? && RecutSafe(n) ==> |n.you.taken| == |n.me.acked|
    ensures Pair(Played(n, a), n.me.sid)
  {
    hide RecutSafe;
    var n' := Played(n, a);
    var s := n.me.sid;
    if a.Key? {
      hide Pair;
      KeyLane(n, s);
    } else if a.Ask? {
      hide Pair;
      AskLane(n, s);
    } else if a.Cut? || a.Recut? || (a.StartSend? && n.me.role.ISS?) {
      CutPair(n, a);
    } else {
      QuietDo(n.me, a);
      assert Paced(n'.me);
      hide Pair;
      QuietLane(n, s, n'.me, Sent(n.me, Do(n.me, a).out));
    }
  }

  lemma CutPair(n: Net, a: Act)
    requires Pair(n, n.me.sid) && CanAct(n, a) && (a.Cut? || a.Recut? || (a.StartSend? && n.me.role.ISS?))
    requires a.Recut? && RecutSafe(n) ==> |n.you.taken| == |n.me.acked|
    ensures Pair(Played(n, a), n.me.sid)
  {
    var n' := Played(n, a);
    var s := n.me.sid;
    assert n.out + [] == n.out;
    assert Paced(n'.me);
    SendingIdle(n, s);
    hide Pair, RecutSafe;
    if a.Recut? {
      if n'.exact { RecutMeans(n); }
      RecutLane(n, s, n'.me, n'.exact);
    } else {
      CutLane(n, s, n'.me);
    }
  }

  lemma RecutMeans(n: Net)
    requires RecutSafe(n)
    ensures forall i :: 0 <= i < |n.out| ==> !IsData(n.out[i], n.me.sid, |n.me.acked|)
  {
  }

  lemma SendingIdle(n: Net, s: nat)
    requires Pair(n, s)
    ensures n.me.task.Sending? ==> n.me.role.ISS?
    ensures n.me.task.Resting? ==> n.me.hand.None?
  {
  }

  /** Hearing a frame without leaving the session. */
  lemma HearPair(n: Net)
    requires Pair(n, n.me.sid) && n.me.state.CONNECTED? && Shape(n.me) && Hearing(n.me) && n.inc != []
    requires Tagged(n.inc, n.me.sid)
    requires !React(n.me, n.inc[0].frame).st.state.IDLE?
    ensures Pair(Played(n, Hear(n.inc[0].frame)), n.me.sid)
    ensures Paced(Played(n, Hear(n.inc[0].frame)).me)
  {
    hide RecutSafe;
    var f := n.inc[0].frame;
    var n' := Played(n, Hear(f));
    var s := n.me.sid;
    assert Paced(n.me);
    assert Plane(f) ==> n.inc[0] == Flight(f, s);
    ReactKinds(n.me, f);
    PacedReact(n.me, f);
    hide Pair, React, Paced;
    if n.me.task.Sending? && Confirms(n.me, f) {
      AckLane(n, s, n'.me, f);
      assert n.out + [] == n.out;
    } else if (n.me.task.Receiving? || n.me.task.Asking?) && f.Data? {
      HearPairData(n, f);
    } else if n.me.task.Receiving? && f.FloorReq? {
      GrantLane(n, s, n'.me);
    } else if n.me.task.Asking? && f.FloorGrant? {
      HandIdle(n, s);
      GrantedLane(n, s, n'.me);
      assert n.out + [] == n.out;
    } else {
      HearPairDropped(n, f);
    }
  }

  lemma HearPairData(n: Net, f: Frame)
    requires Pair(n, n.me.sid) && Shape(n.me) && (n.me.task.Receiving? || n.me.task.Asking?) && f.Data?
    requires n.inc != [] && n.inc[0] == Flight(f, n.me.sid)
    ensures Pair(Played(n, Hear(f)), n.me.sid)
  {
    hide RecutSafe;
    HandIdle(n, n.me.sid);
    assert Paced(n.me);
    hide Pair, React, Paced;
    DataHeard(n.me, f);
    DataLane(n, n.me.sid, Played(n, Hear(f)).me, f, React(n.me, f).out.value);
  }

  lemma HearPairDropped(n: Net, f: Frame)
    requires Pair(n, n.me.sid) && n.me.state.CONNECTED? && Shape(n.me) && Hearing(n.me)
    requires n.inc != [] && n.inc[0].frame == f && !React(n.me, f).st.state.IDLE?
    requires !(n.me.task.Sending? && Confirms(n.me, f)) && !((n.me.task.Receiving? || n.me.task.Asking?) && f.Data?)
    requires !(n.me.task.Receiving? && f.FloorReq?) && !(n.me.task.Asking? && f.FloorGrant?)
    ensures Pair(Played(n, Hear(f)), n.me.sid)
  {
    hide RecutSafe;
    assert Paced(n.me);
    hide Pair, React, Paced;
    DroppedReact(n.me, f);
    DropLane(n, n.me.sid);
    QuietLane(n.(inc := n.inc[1..]), n.me.sid, n.me, Sent(n.me, React(n.me, f).out));
  }

  lemma HandIdle(n: Net, s: nat)
    requires Pair(n, s) && (n.me.task.Receiving? || n.me.task.Asking?)
    ensures n.me.hand.None?
  {
  }

  lemma ReactKinds(s: Station, f: Frame)
    requires s.state.CONNECTED? && Shape(s) && Hearing(s)
    ensures s.task.Sending? && Confirms(s, f) ==> React(s, f) == Deed(TakeAck(s), None)
    ensures s.task.Receiving? && f.FloorReq? ==> React(s, f) == Deed(s.(role := IRS), Some(FloorGrant))
    ensures s.task.Asking? && f.FloorGrant? ==> React(s, f) == Deed(BeginSending(s, s.task.message), None)
  {
  }

  lemma DataHeard(s: Station, f: Frame)
    requires Paced(s) && (s.task.Receiving? || s.task.Asking?) && f.Data? && Shape(s)
    ensures var d := React(s, f);
      && Paced(d.st) && d.out.Some? && d.out.value.DataAck? && d.out.value.answered == f.seqNo
      && d.st.taken == (if f.seqNo == s.rxExpect then s.taken + [Chunk(f.chunk, f.eof)] else s.taken)
      && d.out.value.expects == |d.st.taken| % SEQ_MODULO
      && d.st.acked == s.acked && d.st.hand == s.hand && d.st.role == s.role && d.st.caller == s.caller
      && !d.st.task.Sending? && (Quiescent(d.st) ==> Quiescent(s))
  {
    NextSeq(|s.taken|);
  }

  lemma DroppedReact(s: Station, f: Frame)
    requires s.state.CONNECTED? && Shape(s) && Hearing(s) && !React(s, f).st.state.IDLE?
    requires !(s.task.Sending? && Confirms(s, f)) && !((s.task.Receiving? || s.task.Asking?) && f.Data?)
    requires !(s.task.Receiving? && f.FloorReq?) && !(s.task.Asking? && f.FloorGrant?)
    ensures React(s, f).st == s
    ensures React(s, f).out.Some? ==> React(s, f).out == s.ackBody && React(s, f).out.value.ConnectAck?
  {
  }

  /** A connected station that acts inside its session: what it may have changed. */
  ghost predicate Inside(n: Net, n': Net, q: Queue) {
    && n.me.state.CONNECTED? && SameSession(n.me, n'.me) && Shape(n'.me)
    && n'.you == n.you && n'.next == n.next && n'.out == n.out + q
    && (n'.inc == n.inc || (n.inc != [] && n'.inc == n.inc[1..]))
    && |q| <= 1 && (q != [] ==> InSession(n.me, q[0]))
    && n'.me.reg == n.me.reg && n'.me.up == n.me.up && n'.me.down == n.me.down
  }

  lemma InsideLinked(n: Net, n': Net, q: Queue)
    requires Linked(n) && Linked(Swap(n)) && Inside(n, n', q) && Paced(n'.me)
    requires n.me.caller ==> (q != [] ==> !q[0].frame.Connect?)
    requires n.you.state.CONNECTED? ==> n.you.sid == n.me.sid
    requires Partner(n).Some? ==> Pair(n'.(you := Partner(n).value), n.me.sid)
    ensures Linked(n') && Linked(Swap(n'))
  {
    if q != [] { assert n'.out == n.out + [q[0]]; }
    assert Called(n'.out) ==> Called(n.out);
  }

  /** While its caller is still waiting, a listener keys nothing but floor requests and stays as it began. */
  ghost predicate StaysVirgin(n: Net, n': Net, q: Queue) {
    n.you.state.CONNECTING? && n.you.sid == n.me.sid ==>
      && (q != [] && Plane(q[0].frame) ==> q[0].frame.FloorReq?)
      && (q != [] && q[0].frame.ConnectAck? ==> Some(q[0].frame) == n.me.ackBody)
      && n'.me.taken == [] && n'.me.acked == [] && n'.me.role.IRS? && n'.me.hand.None? && !n'.me.task.Sending?
      && n'.me.lastGood == n.me.lastGood
  }

  lemma InsideRest(n: Net, n': Net, q: Queue)
    requires Full(n) && Inside(n, n', q) && StaysVirgin(n, n', q)
    ensures Virgin(n') && Agreed(n') && Virgin(Swap(n')) && Agreed(Swap(n'))
  {
    if q != [] { assert n'.out == n.out + [q[0]]; }
    InsideVirgin(n, n', q);
    if n.you.task.Calling? {
      if Answered(n.out, n.you.sid) { assert n.me.sid == n.you.sid; }
    }
  }

  lemma InsideVirgin(n: Net, n': Net, q: Queue)
    requires Inv(n) && Virgin(n) && Virgin(Swap(n)) && Inside(n, n', q) && StaysVirgin(n, n', q)
    ensures Virgin(n') && Virgin(Swap(n'))
  {
    if q != [] { assert n'.out == n.out + [q[0]]; }
  }

  /** Nothing of the session reaches a listener whose caller is still waiting. */
  lemma VirginActs(n: Net, a: Act)
    requires Inv(n) && Virgin(Swap(n)) && CanAct(n, a) && n.me.state.CONNECTED? && Paced(n.me)
    requires Quiet(a) || (a.Hear? && !React(n.me, n.inc[0].frame).st.state.IDLE?)
    requires n.you.state.CONNECTING? && n.you.sid == n.me.sid
    ensures var d := Do(n.me, a);
      && (d.out.Some? && Plane(d.out.value) ==> d.out.value.FloorReq?)
      && (d.out.Some? && d.out.value.ConnectAck? ==> d.out == n.me.ackBody)
      && d.st.taken == [] && d.st.acked == [] && d.st.role.IRS? && d.st.hand.None? && !d.st.task.Sending?
      && d.st.lastGood == n.me.lastGood
  {
    hide RecutSafe;
    if a.Hear? {
      assert !Plane(n.inc[0].frame);
      DroppedReact(n.me, n.inc[0].frame);
    }
  }

  lemma PartnerSame(n: Net, p: Station, a: Act)
    requires CanAct(n, a) && Partner(n) == Some(p)
    ensures CanAct(n.(you := p), a)
    ensures Played(n.(you := p), a) == Played(n, a).(you := p)
  {
    RecutSame(n, p);
    hide RecutSafe, Do;
  }

  lemma RecutSame(n: Net, p: Station)
    requires Partner(n) == Some(p)
    ensures RecutSafe(n.(you := p)) == RecutSafe(n)
  {
  }

  lemma RecutPair(n: Net)
    requires Linked(n) && Partner(n).Some? && RecutSafe(n)
    ensures |Partner(n).value.taken| == |n.me.acked|
  {
  }

  /** What a connected station knows of its own session. */
  lemma Settled(n: Net)
    requires Full(n) && n.me.state.CONNECTED?
    ensures Inv(n) && Linked(n) && Linked(Swap(n)) && Virgin(n) && Virgin(Swap(n))
    ensures Shape(n.me) && Paced(n.me) && Tagged(n.inc, n.me.sid)
    ensures n.you.state.CONNECTED? ==> n.you.sid == n.me.sid
    ensures Partner(n).Some? ==> Pair(n.(you := Partner(n).value), n.me.sid)
  {
  }

  lemma QuietFull(n: Net, a: Act)
    requires Full(n) && CanAct(n, a) && Obedient(n, a) && Quiet(a) && n.me.state.CONNECTED?
    ensures Half(Played(n, a)) && Half(Swap(Played(n, a)))
  {
    var n', q := Played(n, a), Sent(n.me, Do(n.me, a).out);
    hide Full, Half, Pair, Played, Do, Inside, StaysVirgin, Paced, Sent, Can;
    QuietInside(n, a);
    QuietPair(n, a);
    InsideFull(n, n', q);
  }

  lemma QuietInside(n: Net, a: Act)
    requires Full(n) && CanAct(n, a) && Obedient(n, a) && Quiet(a) && n.me.state.CONNECTED?
    ensures var n', q := Played(n, a), Sent(n.me, Do(n.me, a).out);
      Inside(n, n', q) && StaysVirgin(n, n', q) && Paced(n'.me)
  {
    hide RecutSafe;
    Settled(n);
    QuietDo(n.me, a);
    hide Full, Half, Inv, Linked, Virgin, Agreed, Pair;
    PacedAct(n.me, a);
    if n.you.state.CONNECTING? && n.you.sid == n.me.sid { VirginActs(n, a); }
    QuietTerms(n.me, a);
    hide Do, Can, Shape, Paced;
  }

  lemma QuietTerms(s: Station, a: Act)
    requires Can(s, a) && Quiet(a)
    ensures Do(s, a).st.reg == s.reg && Do(s, a).st.up == s.up && Do(s, a).st.down == s.down
  {
  }

  lemma QuietPair(n: Net, a: Act)
    requires Full(n) && CanAct(n, a) && Obedient(n, a) && Quiet(a) && n.me.state.CONNECTED?
    ensures Partner(n).Some? ==> Pair(Played(n, a).(you := Partner(n).value), n.me.sid)
  {
    Settled(n);
    if Partner(n).Some? && a.Recut? && RecutSafe(n) { RecutPair(n); }
    hide RecutSafe, Full, Half, Inv, Linked, Virgin, Agreed, Pair, Do, Shape, Paced;
    if Partner(n).Some? {
      var p := Partner(n).value;
      PartnerSame(n, p, a);
      RecutSame(n, p);
      ActPair(n.(you := p), a);
    }
  }

  lemma PacedAct(s: Station, a: Act)
    requires Shape(s) && Paced(s) && s.state.CONNECTED? && Quiet(a) && Can(s, a) && !a.Resume?
    ensures Paced(Do(s, a).st)
  {
  }

  lemma PacedReact(s: Station, f: Frame)
    requires Shape(s) && Paced(s) && s.state.CONNECTED? && Hearing(s) && !React(s, f).st.state.IDLE?
    ensures Paced(React(s, f).st)
  {
    NextSeq(|s.taken|);
    NextSeq(|s.acked|);
    if s.task.Sending? && Confirms(s, f) {
    } else if (s.task.Receiving? || s.task.Asking?) && f.Data? {
      DataHeard(s, f);
    } else if !(s.task.Receiving? && f.FloorReq?) && !(s.task.Asking? && f.FloorGrant?) {
      DroppedReact(s, f);
    }
  }

  lemma NotHandshake(s: Station, f: Frame)
    requires Shape(s) && s.state.CONNECTED?
    ensures !s.task.Calling? && !s.task.Answering?
  {
  }

  lemma ReactTerms(s: Station, f: Frame)
    requires Hearing(s) && !s.task.Calling? && !s.task.Answering?
    ensures React(s, f).st.reg == s.reg && React(s, f).st.up == s.up && React(s, f).st.down == s.down
  {
  }

  lemma HearInside(n: Net, n': Net, q: Queue)
    requires Full(n) && Hearing(n.me) && n.inc != [] && n.me.state.CONNECTED?
    requires !React(n.me, n.inc[0].frame).st.state.IDLE?
    requires n' == Played(n, Hear(n.inc[0].frame)) && q == Sent(n.me, React(n.me, n.inc[0].frame).out)
    ensures Inside(n, n', q) && StaysVirgin(n, n', q) && Paced(n'.me)
  {
    hide RecutSafe;
    var f := n.inc[0].frame;
    Settled(n);
    HeardFacts(n);
    NotHandshake(n.me, f);
    hide Full, Half, Inv, Linked, Virgin, Agreed, Pair, React, Paced;
    QuietReact(n.me, f);
    PacedReact(n.me, f);
    ReactTerms(n.me, f);
    if n.you.state.CONNECTING? && n.you.sid == n.me.sid { VirginActs(n, Hear(f)); }
  }

  lemma HearFull(n: Net)
    requires Full(n) && Hearing(n.me) && n.inc != [] && n.me.state.CONNECTED?
    requires !React(n.me, n.inc[0].frame).st.state.IDLE?
    ensures Half(Played(n, Hear(n.inc[0].frame))) && Half(Swap(Played(n, Hear(n.inc[0].frame))))
  {
    hide RecutSafe;
    var f := n.inc[0].frame;
    var n' := Played(n, Hear(f));
    var q := Sent(n.me, React(n.me, f).out);
    Settled(n);
    HearInside(n, n', q);
    hide Full, Half, Inv, Linked, Virgin, Agreed, Pair, Paced, React, StaysVirgin, Tagged, Shape, Inside;
    if Partner(n).Some? {
      PartnerSame(n, Partner(n).value, Hear(f));
      HearPair(n.(you := Partner(n).value));
    }
    InsideFull(n, n', q);
  }

  lemma InsideFull(n: Net, n': Net, q: Queue)
    requires Full(n) && Inside(n, n', q) && StaysVirgin(n, n', q) && Paced(n'.me)
    requires Partner(n).Some? ==> Pair(n'.(you := Partner(n).value), n.me.sid)
    ensures Half(n') && Half(Swap(n'))
  {
    Settled(n);
    InsideLinked(n, n', q);
    InsideRest(n, n', q);
  }

  // -- beginning and ending a session ---------------------------------------------

  lemma WithdrawHalf(n: Net, me: Station, q: Queue)
    requires Full(n)
    requires (me.state.IDLE? || me.state.LISTENING?) && me.task.Resting?
    requires me.call == n.me.call && me.reg == n.me.reg && me.lastGood == n.me.lastGood
    requires |q| <= 1 && (q != [] ==> q[0].frame.Disc? || q[0].frame.DiscAck?)
    ensures Half(n.(me := me, out := n.out + q)) && Half(Swap(n.(me := me, out := n.out + q)))
  {
    hide RecutSafe;
    var n' := n.(me := me, out := n.out + q);
    if q != [] { assert n'.out == n.out + [q[0]]; }
    assert Half(n');
    assert Linked(Swap(n'));
    assert Virgin(Swap(n'));
    assert Agreed(Swap(n'));
  }

  lemma ListenHalf(n: Net, me: Station)
    requires Full(n)
    requires me == n.me.(state := LISTENING, task := Answering)
    ensures Half(n.(me := me, inc := [])) && Half(Swap(n.(me := me, inc := [])))
  {
    hide RecutSafe;
    var n' := n.(me := me, inc := []);
    assert Half(n');
    assert Linked(Swap(n'));
    assert Virgin(Swap(n'));
    assert Agreed(Swap(n'));
  }

  lemma CallHalf(n: Net, dst: string, sid: nat)
    requires Full(n) && CanAct(n, Call(dst, sid))
    ensures Half(Played(n, Call(dst, sid))) && Half(Swap(Played(n, Call(dst, sid))))
  {
    hide RecutSafe;
    var n' := Played(n, Call(dst, sid));
    assert n'.out == n.out;
    assert Linked(n') && Linked(Swap(n'));
    assert Virgin(n') && Virgin(Swap(n'));
    assert Agreed(n') && Agreed(Swap(n'));
  }

  lemma KeyConnectHalf(n: Net)
    requires Full(n) && CanAct(n, KeyConnect)
    ensures Half(Played(n, KeyConnect)) && Half(Swap(Played(n, KeyConnect)))
  {
    hide RecutSafe;
    var n' := Played(n, KeyConnect);
    var b := n.me.task.body;
    assert n'.out == n.out + [Flight(b, b.sid)];
    assert Linked(n') && Linked(Swap(n'));
    assert Virgin(n') && Virgin(Swap(n'));
    assert Agreed(n') && Agreed(Swap(n'));
  }

  lemma AcceptHalf(n: Net)
    requires Full(n) && n.me.task.Answering? && n.inc != [] && n.inc[0].frame.Connect?
    requires n.inc[0].frame.dst == n.me.call
    ensures Half(Played(n, Hear(n.inc[0].frame))) && Half(Swap(Played(n, Hear(n.inc[0].frame))))
  {
    hide RecutSafe;
    var c := n.inc[0].frame;
    var n' := Played(n, Hear(c));
    assert Accepted(n, n', c);
    assert n.inc[0].frame.Connect? && Called(n.inc);
    AcceptLinked(n, n', c);
    AcceptRest(n, n', c);
  }

  lemma AcceptLinked(n: Net, n': Net, c: Frame)
    requires Inv(n) && Linked(n) && Linked(Swap(n)) && Accepted(n, n', c) && Called(n.inc) && n.inc[0].frame.Connect?
    ensures Linked(n') && Linked(Swap(n'))
  {
    var q := Flight(Answer(n.me, c), c.sid);
    assert n'.out == n.out + [q];
    if n.you.state.CONNECTED? {
      assert n.you.sid == c.sid && n.you.caller;
      assert Partner(Swap(n)) == Some(Newborn(n.me));
      NewbornPair(n, n', c);
    }
  }

  lemma NewbornPair(n: Net, n': Net, c: Frame)
    requires Accepted(n, n', c) && n.inc != []
    requires Pair(Swap(n).(you := Newborn(n.me)), c.sid)
    ensures Pair(n', c.sid) && Pair(Swap(n'), c.sid)
  {
    hide RecutSafe;
    var m := n.(me := Newborn(n.me));
    assert Pair(m, c.sid);
    DropLane(m, c.sid);
    var k := m.(inc := n.inc[1..]);
    QuietLane(k, c.sid, n'.me, [Flight(Answer(n.me, c), c.sid)]);
    assert n' == k.(me := n'.me, out := k.out + [Flight(Answer(n.me, c), c.sid)]);
  }

  lemma AcceptRest(n: Net, n': Net, c: Frame)
    requires Full(n) && Accepted(n, n', c) && n.inc[0].frame.Connect?
    ensures Virgin(n') && Virgin(Swap(n')) && Agreed(n') && Agreed(Swap(n'))
  {
    assert n'.out == n.out + [Flight(Answer(n.me, c), c.sid)];
    assert Virgin(n') && Virgin(Swap(n'));
    assert Agreed(n');
    assert Agreed(Swap(n')) by {
      if n.you.task.Calling? && n.you.sid == c.sid { assert IsCall(n.inc[0], n.you.sid); }
      if n.you.state.CONNECTED? { assert IsCall(n.inc[0], n.you.sid); }
    }
  }

  lemma AckTakenHalf(n: Net)
    requires Full(n) && n.me.task.Calling? && n.inc != []
    requires n.inc[0].frame.ConnectAck? && n.inc[0].frame.dst == n.me.call && n.inc[0].frame.sid == n.me.sid
    ensures Half(Played(n, Hear(n.inc[0].frame))) && Half(Swap(Played(n, Hear(n.inc[0].frame))))
  {
    hide RecutSafe;
    var f := n.inc[0].frame;
    var n' := Played(n, Hear(f));
    assert IsAck(n.inc[0], n.me.sid) && Answered(n.inc, n.me.sid);
    assert n'.me == TakeConnectAck(n.me, f) && n'.out == n.out && n'.inc == n.inc[1..];
    AckTakenLinked(n, n', f);
    assert Virgin(n') && Virgin(Swap(n'));
    AckTakenAgreed(n, n', f);
  }

  lemma AckTakenLinked(n: Net, n': Net, f: Frame)
    requires Inv(n) && Virgin(n) && n.me.task.Calling? && Linked(Swap(n))
    requires n.inc != [] && n.inc[0].frame == f && IsAck(n.inc[0], n.me.sid) && Answered(n.inc, n.me.sid)
    requires n' == n.(me := TakeConnectAck(n.me, f), inc := n.inc[1..])
    ensures Linked(n') && Linked(Swap(n'))
  {
    var s := n.me.sid;
    assert OnlyCalls(n.out, s);
    if Partner(n').Some? {
      var p := Partner(n').value;
      assert p.taken == [] && p.acked == [] && p.role.IRS? && p.hand.None? && !p.task.Sending? && !p.caller;
      FreshPair(n', p, s);
    }
  }

  /** A session that has just begun: no data, no grant, at most the listener's floor requests. */
  lemma FreshPair(n: Net, p: Station, s: nat)
    requires Paced(n.me) && Paced(p) && n.me.caller && !p.caller
    requires n.me.acked == [] && n.me.taken == [] && n.me.hand.None? && n.me.role.ISS?
    requires p.acked == [] && p.taken == [] && p.hand.None? && p.role.IRS? && !p.task.Sending?
    requires forall i :: 0 <= i < |n.out| && Plane(n.out[i].frame) ==> n.out[i].tag != s
    requires forall i :: 0 <= i < |n.inc| && Plane(n.inc[i].frame) && n.inc[i].tag == s ==> n.inc[i].frame.FloorReq?
    ensures Pair(n.(you := p), s)
  {
  }

  lemma AckTakenAgreed(n: Net, n': Net, f: Frame)
    requires Full(n) && n.me.task.Calling?
    requires n.inc != [] && n.inc[0].frame == f && IsAck(n.inc[0], n.me.sid) && Answered(n.inc, n.me.sid)
    requires n' == n.(me := TakeConnectAck(n.me, f), inc := n.inc[1..])
    ensures Agreed(n') && Agreed(Swap(n'))
  {
    assert Shape(n.me);
    var body := n.me.task.body;
    assert f == Answer(n.you, body);
    assert forall i :: 0 <= i < |n.out| && IsCall(n.out[i], n.me.sid) ==> n.out[i].frame == body;
  }

  // -- every move ------------------------------------------------------------------

  lemma ActFull(n: Net, a: Act)
    requires Full(n) && CanAct(n, a) && Obedient(n, a)
    ensures Full(Played(n, a))
  {
    hide RecutSafe;
    var n' := Played(n, a);
    ActKeeps(n, a);
    assert Shape(n.me);
    hide Full, Half, Inv;
    if a.Hear? {
      HearAny(n);
    } else if Quiet(a) {
      if n.me.state.CONNECTED? { QuietFull(n, a); } else { KeyConnectHalf(n); }
    } else if a.Call? {
      CallHalf(n, a.dst, a.newSid);
    } else if a.Listen? {
      ListenHalf(n, n'.me);
      assert n.out + [] == n.out;
    } else {
      WithdrawHalf(n, n'.me, Sent(n.me, Do(n.me, a).out));
    }
    JoinFull(n');
  }

  lemma JoinFull(n: Net)
    requires Inv(n) && Half(n) && Half(Swap(n))
    ensures Full(n)
  {
  }

  lemma HearAny(n: Net)
    requires Full(n) && Hearing(n.me) && n.inc != []
    ensures Half(Played(n, Hear(n.inc[0].frame))) && Half(Swap(Played(n, Hear(n.inc[0].frame))))
  {
    var f, s := n.inc[0].frame, n.me;
    hide RecutSafe, Full, Half, Played, React;
    if s.task.Calling? && f.ConnectAck? && f.dst == s.call && f.sid == s.sid {
      AckTakenHalf(n);
    } else if s.task.Answering? && f.Connect? && f.dst == s.call {
      AcceptHalf(n);
    } else if React(s, f).st.state.CONNECTED? && s.state.CONNECTED? {
      HearFull(n);
    } else {
      HearOutside(n);
    }
  }

  /** Hearing a frame outside a session, or one that ends it. */
  lemma HearOutside(n: Net)
    requires Full(n) && Hearing(n.me) && n.inc != []
    requires var s, f := n.me, n.inc[0].frame;
      && !(s.task.Calling? && f.ConnectAck? && f.dst == s.call && f.sid == s.sid)
      && !(s.task.Answering? && f.Connect? && f.dst == s.call)
      && !(React(s, f).st.state.CONNECTED? && s.state.CONNECTED?)
    ensures Half(Played(n, Hear(n.inc[0].frame))) && Half(Swap(Played(n, Hear(n.inc[0].frame))))
  {
    hide RecutSafe;
    var f, s := n.inc[0].frame, n.me;
    var d := React(s, f);
    assert Shape(s);
    OutsideReact(s, f);
    HearPlays(n, f);
    hide Full, Half, Played, React, Shape;
    TakeFull(n);
    var m := n.(inc := n.inc[1..]);
    if d.st == s {
      assert m.out + [] == m.out;
      SplitFull(m);
    } else {
      WithdrawHalf(m, d.st, Sent(s, d.out));
    }
  }

  /** Such a frame is dropped, or ends the session or the listening. */
  lemma OutsideReact(s: Station, f: Frame)
    requires Hearing(s) && Shape(s)
    requires !(s.task.Calling? && f.ConnectAck? && f.dst == s.call && f.sid == s.sid)
    requires !(s.task.Answering? && f.Connect? && f.dst == s.call)
    requires !(React(s, f).st.state.CONNECTED? && s.state.CONNECTED?)
    ensures var d := React(s, f);
      if d.st == s then d.out == None || f.Disc? || f.DiscAck?
      else
        && (d.st.state.IDLE? || d.st.state.LISTENING?) && d.st.task.Resting?
        && d.st.call == s.call && d.st.reg == s.reg && d.st.lastGood == s.lastGood
        && (d.out.Some? ==> d.out.value.Disc? || d.out.value.DiscAck?)
  {
  }

  lemma SplitFull(n: Net)
    requires Full(n)
    ensures Half(n) && Half(Swap(n))
  {
  }

  lemma MoveFull(n: Net, m: Move)
    requires Full(n) && CanMove(n, m) && ObedientMove(n, m)
    ensures Full(Moved(n, m))
  {
    match m
    case Mine(a) => ActFull(n, a);
    case Yours(a) => ActFull(Swap(n), a);
    case LoseOut(k) => LossFull(n, k);
    case LoseInc(k) => LossFull(Swap(n), k);
  }

  lemma StartFull(n: Net)
    requires Start(n)
    ensures Full(n)
  {
  }

  lemma {:induction false} RunFull(n: Net, moves: seq<Move>, last: Net)
    requires Full(n) && ReachesObediently(n, moves, last)
    ensures Full(last)
    decreases |moves|
  {
    if moves != [] {
      MoveFull(n, moves[0]);
      RunFull(Moved(n, moves[0]), moves[1..], last);
    }
  }
}
