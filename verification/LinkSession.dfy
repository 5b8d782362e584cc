/**
 Session identity over the whole run: two connected stations are in one session, as caller
 and listener, and no DATA, DATA_ACK, FLOOR_REQ or FLOOR_GRANT of another session can reach
 a connected station. The invariant follows CONNECT and CONNECT_ACK frames through the queues.
 */
module LinkSession {
  import opened Common
  import opened LinkStation
  import opened LinkNet

  predicate Plane(f: Frame) {
    f.Data? || f.DataAck? || f.FloorReq? || f.FloorGrant?
  }

  predicate IsAck(f: Flight, sid: nat) {
    f.frame.ConnectAck? && f.frame.sid == sid
  }

  predicate IsCall(f: Flight, sid: nat) {
    f.frame.Connect? && f.frame.sid == sid
  }

  ghost predicate Answered(q: Queue, sid: nat) {
    exists i :: 0 <= i < |q| && IsAck(q[i], sid)
  }

  ghost predicate Called(q: Queue) {
    exists i :: 0 <= i < |q| && q[i].frame.Connect?
  }

  ghost predicate OnlyCalls(q: Queue, sid: nat) {
    forall i :: 0 <= i < |q| && q[i].frame.Connect? ==> q[i].frame.sid == sid
  }

  /** Where a station's task and state must agree. */
  ghost predicate Shape(s: Station) {
    && (s.task.Calling? <==> s.state.CONNECTING?)
    && (s.task.Calling? ==> s.task.body.Connect? && s.task.body.sid == s.sid && s.task.body.src == s.call)
    && (s.task.Answering? ==> s.state.LISTENING?)
    && (s.task.Receiving? || s.task.Asking? || s.task.Sending? || s.task.Failed? || s.task.Leaving?
        ==> s.state.CONNECTED?)
    && (s.state.CONNECTING? || s.state.CONNECTED? ==> s.sid > 0)
    && (s.ackBody.Some? ==> s.ackBody.value.ConnectAck?)
    && (s.state.CONNECTED? && !s.caller ==> s.ackBody.Some? && s.ackBody.value.sid == s.sid)
    && (s.state.CONNECTED? ==> s.peer.Some?)
  }

  /** Who issued which id, and that nothing carries an id not yet issued. */
  ghost predicate Issued(n: Net) {
    && n.next > 0
    && n.me.sid < n.next
    && n.me.calls !! n.you.calls
    && (forall s :: s in n.me.calls ==> 0 < s < n.next)
    && (n.me.state.CONNECTING? ==> n.me.sid in n.me.calls)
    && (n.me.state.CONNECTED? ==> n.me.sid in if n.me.caller then n.me.calls else n.you.calls)
    && (forall i :: 0 <= i < |n.out| ==> n.out[i].tag < n.next)
    && (forall i :: 0 <= i < |n.out| && n.out[i].frame.Connect? ==> n.out[i].frame.sid in n.me.calls)
    && (forall i :: 0 <= i < |n.out| && n.out[i].frame.ConnectAck? ==> n.out[i].frame.sid in n.you.calls)
  }

  /** A connected station, its peer and its queue are in the same session. */
  ghost predicate Together(n: Net) {
    n.me.state.CONNECTED? ==>
      && (n.you.state.CONNECTED? ==> n.you.sid == n.me.sid && n.you.caller != n.me.caller)
      && (forall i :: 0 <= i < |n.inc| && Plane(n.inc[i].frame) ==> n.inc[i].tag == n.me.sid)
  }

  /** What holds once the answer to a call is in the caller's queue. */
  ghost predicate AnswerDue(n: Net) {
    && (n.me.state.CONNECTING? && Answered(n.inc, n.me.sid) ==>
        && (n.you.state.CONNECTED? ==> n.you.sid == n.me.sid && !n.you.caller)
        && OnlyCalls(n.out, n.me.sid)
        && (n.you.state.CONNECTING? ==> !Answered(n.out, n.you.sid)))
    && (n.me.state.CONNECTING? ==>
        forall i, j :: 0 <= i < j < |n.inc| && IsAck(n.inc[i], n.me.sid) && Plane(n.inc[j].frame)
          ==> n.inc[j].tag == n.me.sid)
    && (n.me.state.CONNECTING? ==>
        forall i, j :: 0 <= i < j < |n.out| && IsCall(n.out[i], n.me.sid) && n.out[j].frame.Connect?
          ==> n.out[j].frame.sid == n.me.sid)
    && (n.me.state.CONNECTING? && n.you.state.CONNECTED? && n.you.sid == n.me.sid ==>
        OnlyCalls(n.out, n.me.sid) && !n.you.caller)
  }

  /** What holds while a listener has a CONNECT waiting. */
  ghost predicate CallDue(n: Net) {
    n.me.task.Answering? ==>
      && (forall i :: 0 <= i < |n.inc| && n.inc[i].frame.Connect? ==>
            && (n.you.state.CONNECTED? ==> n.you.sid == n.inc[i].frame.sid && n.you.caller)
            && (n.you.task.Answering? ==> !Called(n.out)))
      && (forall i, j :: 0 <= i < j < |n.inc| && n.inc[i].frame.Connect? && Plane(n.inc[j].frame)
            ==> n.inc[j].tag == n.inc[i].frame.sid)
  }

  ghost predicate Side(n: Net) {
    Shape(n.me) && Issued(n) && Together(n) && AnswerDue(n) && CallDue(n)
  }

  ghost predicate Inv(n: Net) {
    Side(n) && Side(Swap(n))
  }

  // -- losing a frame, and acts that leave the session alone ------------------

  lemma LossKeeps(n: Net, k: nat)
    requires Inv(n) && k < |n.out|
    ensures Inv(n.(out := Without(n.out, k)))
  {
    LossMine(n, k);
    LossYours(n, k);
  }

  lemma LossMine(n: Net, k: nat)
    requires Inv(n) && k < |n.out|
    ensures Side(n.(out := Without(n.out, k)))
  {
    Thinner(n.out, k);
  }

  lemma LossYours(n: Net, k: nat)
    requires Inv(n) && k < |n.out|
    ensures Side(Swap(n.(out := Without(n.out, k))))
  {
    Thinner(n.out, k);
  }

  lemma Thinner(q: Queue, k: nat)
    requires k < |q|
    ensures forall s: nat :: Answered(Without(q, k), s) ==> Answered(q, s)
    ensures Called(Without(q, k)) ==> Called(q)
    ensures forall s: nat :: OnlyCalls(q, s) ==> OnlyCalls(Without(q, k), s)
  {
  }

  lemma TakeKeeps(n: Net)
    requires Inv(n) && n.inc != []
    ensures Inv(n.(inc := n.inc[1..]))
  {
    LossKeeps(Swap(n), 0);
    assert Without(n.inc, 0) == n.inc[1..];
  }

  predicate SameSession(s: Station, t: Station) {
    && s.state == t.state && s.sid == t.sid && s.caller == t.caller && s.calls == t.calls
    && s.ackBody == t.ackBody && s.task.Answering? == t.task.Answering? && s.peer == t.peer
    && s.call == t.call
  }

  /** The frames a station may key without touching its session. */
  predicate InSession(s: Station, f: Flight) {
    if f.frame.Connect? then s.state.CONNECTING? && f.frame.sid == s.sid && f.tag == s.sid
    else if f.frame.ConnectAck? then s.state.CONNECTED? && !s.caller && f.frame.sid == s.sid && f.tag == s.sid
    else f.tag == s.sid && (Plane(f.frame) ==> s.state.CONNECTED?)
  }

  lemma QuietKeeps(n: Net, me: Station, q: Queue)
    requires Inv(n)
    requires SameSession(n.me, me) && Shape(me)
    requires |q| <= 1 && (q != [] ==> InSession(n.me, q[0]))
    ensures Inv(n.(me := me, out := n.out + q))
  {
    var n' := n.(me := me, out := n.out + q);
    QuietMine(n, n', q);
    QuietYours(n, n', q);
  }

  lemma QuietMine(n: Net, n': Net, q: Queue)
    requires Inv(n) && SameSession(n.me, n'.me) && Shape(n'.me)
    requires |q| <= 1 && (q != [] ==> InSession(n.me, q[0]))
    requires n' == n.(me := n'.me, out := n.out + q)
    ensures Side(n')
  {
    if q != [] { assert n'.out == n.out + [q[0]]; }
    assert Issued(n');
    assert Together(n');
    assert AnswerDue(n');
    assert CallDue(n');
  }

  lemma QuietYours(n: Net, n': Net, q: Queue)
    requires Inv(n) && SameSession(n.me, n'.me) && Shape(n'.me)
    requires |q| <= 1 && (q != [] ==> InSession(n.me, q[0]))
    requires n' == n.(me := n'.me, out := n.out + q)
    ensures Side(Swap(n'))
  {
    if q != [] { assert n'.out == n.out + [q[0]]; }
    assert Issued(Swap(n'));
    assert Together(Swap(n'));
    assert AnswerDue(Swap(n'));
    assert CallDue(Swap(n'));
  }

  // -- acts that begin or end one ---------------------------------------------

  /** Ending a session, giving up a call, or no longer listening. */
  lemma WithdrawKeeps(n: Net, me: Station, q: Queue)
    requires Inv(n)
    requires (me.state.IDLE? || me.state.LISTENING?) && me.task.Resting?
    requires me.calls == n.me.calls && me.sid <= n.me.sid && (me.ackBody == n.me.ackBody || me.ackBody.None?)
    requires |q| <= 1 && (q != [] ==> (q[0].frame.Disc? || q[0].frame.DiscAck?) && q[0].tag < n.next)
    ensures Inv(n.(me := me, out := n.out + q))
  {
    hide RecutSafe;
    var n' := n.(me := me, out := n.out + q);
    if q != [] { assert n'.out == n.out + [q[0]]; }
    assert Side(n');
    assert Issued(Swap(n')) && Together(Swap(n'));
    assert AnswerDue(Swap(n'));
    assert CallDue(Swap(n'));
  }

  lemma ListenKeeps(n: Net, me: Station)
    requires Inv(n)
    requires me.state.LISTENING? && me.task.Answering? && me.calls == n.me.calls && me.sid == n.me.sid
    requires me.ackBody == n.me.ackBody
    ensures Inv(n.(me := me, inc := []))
  {
    hide RecutSafe;
    var n' := n.(me := me, inc := []);
    assert Side(n');
    assert Issued(Swap(n')) && Together(Swap(n'));
    assert AnswerDue(Swap(n'));
    assert CallDue(Swap(n'));
  }

  lemma CallKeeps(n: Net, dst: string, sid: nat)
    requires Inv(n) && CanAct(n, Call(dst, sid))
    ensures Inv(Played(n, Call(dst, sid)))
  {
    hide RecutSafe;
    var n' := Played(n, Call(dst, sid));
    assert n'.out == n.out;
    assert Issued(n') && Together(n') && CallDue(n');
    assert AnswerDue(n');
    assert Issued(Swap(n')) && Together(Swap(n'));
    assert AnswerDue(Swap(n'));
    assert CallDue(Swap(n'));
  }

  lemma AcceptKeeps(n: Net)
    requires Inv(n) && n.me.task.Answering? && n.inc != [] && n.inc[0].frame.Connect?
    requires n.inc[0].frame.dst == n.me.call
    ensures Inv(Played(n, Hear(n.inc[0].frame)))
  {
    hide RecutSafe;
    var c := n.inc[0].frame;
    var n' := Played(n, Hear(c));
    var ack := Answer(n.me, c);
    assert n'.me == Accept(n.me, c).st;
    assert n'.out == n.out + [Flight(ack, c.sid)];
    assert n'.inc == n.inc[1..];
    AcceptMine(n, n', c);
    AcceptYours(n, n', c);
  }

  predicate Accepted(n: Net, n': Net, c: Frame) {
    && n.me.task.Answering? && n.inc != [] && n.inc[0].frame == c && c.Connect?
    && n'.you == n.you && n'.next == n.next && n'.exact == n.exact && n'.inc == n.inc[1..]
    && n'.me == Accept(n.me, c).st
    && n'.out == n.out + [Flight(Answer(n.me, c), c.sid)]
  }

  lemma AcceptMine(n: Net, n': Net, c: Frame)
    requires Inv(n) && Accepted(n, n', c)
    ensures Side(n')
  {
    assert n.inc[0].frame.Connect?;
    assert Issued(n');
    assert Together(n');
    assert AnswerDue(n');
    assert CallDue(n');
  }

  lemma AcceptYours(n: Net, n': Net, c: Frame)
    requires Inv(n) && Accepted(n, n', c)
    ensures Side(Swap(n'))
  {
    assert n.inc[0].frame.Connect?;
    assert Issued(Swap(n'));
    assert Together(Swap(n'));
    assert CallDue(Swap(n'));
    assert AnswerDue(Swap(n')) by {
      if n.you.state.CONNECTING? {
        if Answered(n.out, n.you.sid) { assert OnlyCalls(n.inc, n.you.sid); }
      }
    }
  }

  lemma AckTakenKeeps(n: Net)
    requires Inv(n) && n.me.task.Calling? && n.inc != []
    requires n.inc[0].frame.ConnectAck? && n.inc[0].frame.dst == n.me.call && n.inc[0].frame.sid == n.me.sid
    ensures Inv(Played(n, Hear(n.inc[0].frame)))
  {
    hide RecutSafe;
    var f := n.inc[0].frame;
    var n' := Played(n, Hear(f));
    assert IsAck(n.inc[0], n.me.sid);
    assert Answered(n.inc, n.me.sid);
    assert n'.me == TakeConnectAck(n.me, f) && n'.out == n.out && n'.inc == n.inc[1..];
    assert Issued(n') && CallDue(n');
    assert Together(n');
    assert AnswerDue(n');
    assert Issued(Swap(n')) && Together(Swap(n'));
    assert CallDue(Swap(n'));
    assert AnswerDue(Swap(n'));
  }

  // -- every move -------------------------------------------------------------

  /** The acts that neither begin nor end a session, nor take a packet. */
  predicate Quiet(a: Act) {
    !(a.Call? || a.GiveUpCall? || a.Listen? || a.StopListening? || a.Left? || a.Hang? || a.Hear?)
  }

  lemma QuietDo(s: Station, a: Act)
    requires Shape(s) && Quiet(a) && Can(s, a)
    ensures SameSession(s, Do(s, a).st) && Shape(Do(s, a).st)
    ensures Sent(s, Do(s, a).out) != [] ==> InSession(s, Sent(s, Do(s, a).out)[0])
  {
  }

  lemma QuietActKeeps(n: Net, a: Act)
    requires Inv(n) && CanAct(n, a) && Quiet(a)
    ensures Inv(Played(n, a))
  {
    assert Shape(n.me);
    hide RecutSafe, Inv;
    QuietDo(n.me, a);
    hide Do;
    QuietKeeps(n, Played(n, a).me, Sent(n.me, Do(n.me, a).out));
  }

  lemma ActKeeps(n: Net, a: Act)
    requires Inv(n) && CanAct(n, a)
    ensures Inv(Played(n, a))
  {
    hide RecutSafe;
    var n' := Played(n, a);
    assert Shape(n.me) && n.me.sid < n.next;
    hide Inv;
    if Quiet(a) {
      QuietActKeeps(n, a);
    } else if a.Call? {
      CallKeeps(n, a.dst, a.newSid);
    } else if a.Listen? {
      ListenKeeps(n, n'.me);
      assert n.out + [] == n.out;
    } else if a.Hear? {
      HearKeeps(n);
    } else {
      WithdrawKeeps(n, n'.me, Sent(n.me, Do(n.me, a).out));
    }
  }

  /** Apart from the handshake and teardown, hearing a frame is quiet. */
  lemma QuietReact(s: Station, f: Frame)
    requires Shape(s) && Hearing(s)
    requires IsDuplicateConnect(s, f) ==> !s.caller
    requires !(s.task.Calling? && f.ConnectAck? && f.dst == s.call && f.sid == s.sid)
    requires !(s.task.Answering? && f.Connect?)
    requires !React(s, f).st.state.IDLE?
    ensures SameSession(s, React(s, f).st) && Shape(React(s, f).st)
    ensures Sent(s, React(s, f).out) != [] ==> InSession(s, Sent(s, React(s, f).out)[0])
  {
    if f.Data? && (s.task.Receiving? || s.task.Asking?) {
      QuietData(s, f);
    } else {
      QuietOther(s, f);
    }
  }

  lemma QuietData(s: Station, f: Frame)
    requires Shape(s) && (s.task.Receiving? || s.task.Asking?) && f.Data?
    ensures SameSession(s, React(s, f).st) && Shape(React(s, f).st)
    ensures React(s, f).out.Some? && React(s, f).out.value.DataAck?
  {
  }

  lemma QuietOther(s: Station, f: Frame)
    requires Shape(s) && Hearing(s) && !(f.Data? && (s.task.Receiving? || s.task.Asking?))
    requires !(s.task.Calling? && f.ConnectAck? && f.dst == s.call && f.sid == s.sid)
    requires !(s.task.Answering? && f.Connect?)
    requires !React(s, f).st.state.IDLE?
    ensures SameSession(s, React(s, f).st) && Shape(React(s, f).st)
    ensures React(s, f).out.Some? ==>
      (React(s, f).out == Some(FloorGrant) && s.state.CONNECTED?)
      || (IsDuplicateConnect(s, f) && React(s, f).out == s.ackBody)
  {
  }

  lemma HeardFacts(n: Net)
    requires Inv(n) && Hearing(n.me) && n.inc != []
    ensures Shape(n.me) && n.me.sid < n.next
    ensures IsDuplicateConnect(n.me, n.inc[0].frame) && !n.me.task.Answering? ==> !n.me.caller
  {
    var f := n.inc[0].frame;
    if IsDuplicateConnect(n.me, f) && n.me.state.CONNECTED? { assert f.sid in n.you.calls; }
  }

  /** A frame that ends the session, or the listening. */
  lemma WithdrawReact(s: Station, f: Frame)
    requires Shape(s) && Hearing(s) && !(s.task.Answering? && f.Connect? && f.dst == s.call)
    requires React(s, f).st.state.IDLE? || (s.task.Answering? && f.Connect?)
    ensures var d := React(s, f);
      && (d.st.state.IDLE? || d.st.state.LISTENING?) && d.st.task.Resting?
      && d.st.calls == s.calls && d.st.sid <= s.sid && (d.st.ackBody == s.ackBody || d.st.ackBody.None?)
      && (d.out.Some? ==> d.out.value.Disc? || d.out.value.DiscAck?)
  {
  }

  /** Hearing anything but the end of a handshake. */
  lemma HearOther(n: Net)
    requires Inv(n) && Hearing(n.me) && n.inc != []
    requires var s, f := n.me, n.inc[0].frame;
      && !(s.task.Calling? && f.ConnectAck? && f.dst == s.call && f.sid == s.sid)
      && !(s.task.Answering? && f.Connect? && f.dst == s.call)
    ensures Inv(Played(n, Hear(n.inc[0].frame)))
  {
    hide RecutSafe;
    var s, f := n.me, n.inc[0].frame;
    HeardFacts(n);
    HearPlays(n, f);
    TakeKeeps(n);
    var m := n.(inc := n.inc[1..]);
    var d := React(s, f);
    if d.st.state.IDLE? || (s.task.Answering? && f.Connect?) {
      WithdrawReact(s, f);
      hide Inv, Shape, Played, React;
      WithdrawKeeps(m, d.st, Sent(s, d.out));
    } else {
      QuietReact(s, f);
      hide Inv, Shape, Played, React;
      QuietKeeps(m, d.st, Sent(s, d.out));
    }
  }

  lemma HearKeeps(n: Net)
    requires Inv(n) && Hearing(n.me) && n.inc != []
    ensures Inv(Played(n, Hear(n.inc[0].frame)))
  {
    hide RecutSafe, Inv, Played, React;
    var s, f := n.me, n.inc[0].frame;
    if s.task.Calling? && f.ConnectAck? && f.dst == s.call && f.sid == s.sid {
      AckTakenKeeps(n);
    } else if s.task.Answering? && f.Connect? && f.dst == s.call {
      AcceptKeeps(n);
    } else {
      HearOther(n);
    }
  }

  lemma MoveKeeps(n: Net, m: Move)
    requires Inv(n) && CanMove(n, m)
    ensures Inv(Moved(n, m))
  {
    match m
    case Mine(a) => ActKeeps(n, a);
    case Yours(a) => ActKeeps(Swap(n), a);
    case LoseOut(k) => LossKeeps(n, k);
    case LoseInc(k) => LossKeeps(Swap(n), k);
  }

  lemma {:induction false} RunKeeps(n: Net, moves: seq<Move>, last: Net)
    requires Inv(n) && Reaches(n, moves, last)
    ensures Inv(last)
    decreases |moves|
  {
    if moves != [] {
      MoveKeeps(n, moves[0]);
      RunKeeps(Moved(n, moves[0]), moves[1..], last);
    }
  }
}
