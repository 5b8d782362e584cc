/**
 What two stations negotiate, over every run: whenever both ladders have the same control mode,
 every mode a handshake agrees on, and every mode a station steps to later, is one both ends have.
 A CONNECT travels in its caller's control mode and is only decoded in the listener's, so stations
 that complete a handshake have that mode in common: module Codec proves it of the wire format.
 */
module LinkTerms {
  import opened Common
  import opened LinkStation
  import opened LinkNet
  import opened LinkRuns

  predicate Shared(a: Registry, b: Registry, id: nat) {
    a.Supports(id) && b.Supports(id)
  }

  /** Only stations with one control mode can complete a handshake over the air. */
  predicate SameControl(n: Net) {
    n.me.reg.control.id == n.you.reg.control.id
  }

  /** What a handshake frame keyed by a station with ladder `from` may offer and settle. */
  ghost predicate Offered(f: Frame, from: Registry, to: Registry) {
    && (f.Connect? ==> f.modes == from.Ids() && from.Supports(f.proposed))
    && (f.ConnectAck? ==> f.modes == from.Ids() && Shared(from, to, f.accepted) && Shared(from, to, f.own))
  }

  /** All a station has settled is known to a peer with ladder `other`. */
  ghost predicate Knows(s: Station, other: Registry) {
    && s.reg.Valid() && other.Valid() && s.reg.control.id == other.control.id
    && (s.task.Calling? ==> Offered(s.task.body, s.reg, other))
    && (s.ackBody.Some? ==> Offered(s.ackBody.value, s.reg, other))
    && (s.state.CONNECTED? ==>
          && Shared(s.reg, other, s.up) && Shared(s.reg, other, s.down)
          && s.tx in s.reg.modes && other.Supports(s.tx.id)
          && forall id :: id in s.peerModes ==> other.Supports(id))
  }

  ghost predicate Terms(n: Net) {
    && Knows(n.me, n.you.reg) && Knows(n.you, n.me.reg)
    && (forall i :: 0 <= i < |n.out| ==> Offered(n.out[i].frame, n.me.reg, n.you.reg))
    && (forall i :: 0 <= i < |n.inc| ==> Offered(n.inc[i].frame, n.you.reg, n.me.reg))
  }

  lemma ControlKnown(r: Registry)
    requires r.Valid()
    ensures r.Supports(r.control.id) && r.Resolve(r.control.id).id == r.control.id
  {
    var i :| 0 <= i < |r.modes| && r.modes[i] == r.control;
  }

  lemma OwnIds(r: Registry)
    ensures forall id: nat :: id in r.Ids() <==> r.Supports(id)
  {
    forall id: nat ensures id in r.Ids() <==> r.Supports(id) {
      if id in r.Ids() {
        var i :| 0 <= i < |r.Ids()| && r.Ids()[i] == id;
        assert r.modes[i].id == id;
      }
      if r.Supports(id) { assert r.Ids()[r.Index(id)] == id; }
    }
  }

  /** The answer settles on modes both ends have. */
  lemma AnswerOffers(s: Station, c: Frame, other: Registry)
    requires Knows(s, other) && c.Connect? && Offered(c, other, s.reg)
    ensures Offered(Answer(s, c), s.reg, other)
  {
    ControlKnown(s.reg);
    ControlKnown(other);
    OwnIds(other);
  }

  lemma CallOffers(s: Station, dst: string, sid: nat, other: Registry)
    requires s.reg.Valid()
    ensures Offered(CallBody(s, dst, sid), s.reg, other)
  {
    ControlKnown(s.reg);
  }

  /** A station begins a session with what a CONNECT_ACK settled and what its peer offered. */
  lemma SettlesOn(s: Station, t: Station, other: Registry, ids: seq<nat>, tx: nat)
    requires Knows(s, other) && t.reg == s.reg && t.tx == s.reg.Resolve(tx) && t.peerModes == (set m | m in ids)
    requires Shared(s.reg, other, t.up) && Shared(s.reg, other, t.down) && (tx == t.up || tx == t.down)
    requires ids == other.Ids() && t.task.Resting? && (t.ackBody.Some? ==> Offered(t.ackBody.value, s.reg, other))
    ensures Knows(t, other)
  {
    OwnIds(other);
  }

  lemma KnowsDo(s: Station, a: Act, other: Registry)
    requires Knows(s, other) && Can(s, a) && (a.Hear? ==> Offered(a.frame, other, s.reg))
    ensures Knows(Do(s, a).st, other) && Do(s, a).st.reg == s.reg
    ensures Do(s, a).out.Some? ==> Offered(Do(s, a).out.value, s.reg, other)
  {
    if a.Hear? {
      KnowsHear(s, a.frame, other);
    } else if a.Call? {
      hide Registry.Supports, Registry.Ids;
      CallOffers(s, a.dst, a.newSid, other);
    } else if a.Shift? {
      hide Registry.Supports, Registry.Ids, Offered;
    } else {
      hide Knows, Offered, Do;
      KnowsQuiet(s, a, other);
    }
  }

  lemma KnowsQuiet(s: Station, a: Act, other: Registry)
    requires Knows(s, other) && Can(s, a) && !a.Hear? && !a.Call? && !a.Shift?
    ensures Knows(Do(s, a).st, other) && Do(s, a).st.reg == s.reg
    ensures Do(s, a).out.Some? ==> Offered(Do(s, a).out.value, s.reg, other)
  {
    if a.KeyConnect? {
      hide Registry.Supports, Registry.Ids;
    } else {
      QuietSettles(s, a);
      hide Knows, Do;
      assert Do(s, a).out.Some? ==> Offered(Do(s, a).out.value, s.reg, other);
      hide Offered;
      SettledSame(s, Do(s, a).st, other);
    }
  }

  lemma QuietSettles(s: Station, a: Act)
    requires Can(s, a) && !a.Hear? && !a.Call? && !a.Shift? && !a.KeyConnect?
    ensures var d := Do(s, a);
      && d.st.reg == s.reg && d.st.up == s.up && d.st.down == s.down && d.st.tx == s.tx
      && d.st.peerModes == s.peerModes && (d.st.ackBody == s.ackBody || d.st.ackBody.None?)
      && (d.st.task.Calling? ==> d.st.task == s.task)
      && (d.st.state.CONNECTED? ==> s.state.CONNECTED?)
      && (d.out.Some? ==> !d.out.value.Connect? && !d.out.value.ConnectAck?)
  {
    hide React, CutAt;
  }

  lemma KnowsHear(s: Station, f: Frame, other: Registry)
    requires Knows(s, other) && Hearing(s) && Offered(f, other, s.reg)
    ensures Knows(React(s, f).st, other) && React(s, f).st.reg == s.reg
    ensures React(s, f).out.Some? ==> Offered(React(s, f).out.value, s.reg, other)
  {
    if s.task.Calling? && f.ConnectAck? && f.dst == s.call && f.sid == s.sid {
      hide Registry.Supports, Registry.Ids, Registry.Resolve;
      SettlesOn(s, TakeConnectAck(s, f), other, f.modes, f.accepted);
    } else if s.task.Answering? && f.Connect? && f.dst == s.call {
      AnswerOffers(s, f, other);
      hide Registry.Supports, Registry.Ids, Registry.Resolve, Answer;
      SettlesOn(s, Accept(s, f).st, other, f.modes, Answer(s, f).own);
    } else {
      hide Knows, Offered, React;
      KnowsOther(s, f, other);
    }
  }

  /** Apart from the end of a handshake, hearing a frame settles nothing. */
  lemma KnowsOther(s: Station, f: Frame, other: Registry)
    requires Knows(s, other) && Hearing(s)
    requires !(s.task.Calling? && f.ConnectAck? && f.dst == s.call && f.sid == s.sid)
    requires !(s.task.Answering? && f.Connect? && f.dst == s.call)
    ensures Knows(React(s, f).st, other) && React(s, f).st.reg == s.reg
    ensures React(s, f).out.Some? ==> Offered(React(s, f).out.value, s.reg, other)
  {
    var t := React(s, f).st;
    hide Knows, Offered, Registry.Supports, Registry.Ids, Registry.Resolve, Accept, TakeConnectAck;
    SettledSame(s, t, other);
  }

  lemma SettledSame(s: Station, t: Station, other: Registry)
    requires Knows(s, other) && t.reg == s.reg && t.up == s.up && t.down == s.down && t.tx == s.tx
    requires t.peerModes == s.peerModes && (t.ackBody == s.ackBody || t.ackBody.None?)
    requires t.task.Calling? ==> t.task == s.task
    requires t.state.CONNECTED? ==> s.state.CONNECTED?
    ensures Knows(t, other) && (s.ackBody.Some? ==> Offered(s.ackBody.value, s.reg, other))
  {
  }

  lemma TermsAct(n: Net, a: Act)
    requires Terms(n) && CanAct(n, a)
    ensures Terms(Played(n, a))
  {
    hide RecutSafe, Knows, Offered;
    KnowsDo(n.me, a, n.you.reg);
  }

  lemma TermsMove(n: Net, m: Move)
    requires Terms(n) && CanMove(n, m)
    ensures Terms(Moved(n, m))
  {
    hide RecutSafe, Knows, Offered, Played;
    match m
    case Mine(a) => TermsAct(n, a);
    case Yours(a) => TermsAct(Swap(n), a);
    case LoseOut(k) =>
    case LoseInc(k) =>
  }

  lemma TermsKnow(n: Net)
    requires Terms(n)
    ensures Knows(n.me, n.you.reg) && Knows(n.you, n.me.reg)
  {
    hide Knows, Offered;
  }

  lemma RungsStay(n: Net, m: Move)
    requires Terms(n) && CanMove(n, m)
    ensures Moved(n, m).me.reg == n.me.reg && Moved(n, m).you.reg == n.you.reg
  {
    hide RecutSafe, Knows, Offered, Do;
    if m.Mine? { KnowsDo(n.me, m.act, n.you.reg); }
    if m.Yours? { KnowsDo(n.you, m.act, n.me.reg); }
  }

  lemma {:induction false} TermsRun(n: Net, moves: seq<Move>, last: Net)
    requires Terms(n) && Reaches(n, moves, last)
    ensures Terms(last)
    decreases |moves|
  {
    if moves != [] {
      TermsMove(n, moves[0]);
      TermsRun(Moved(n, moves[0]), moves[1..], last);
    }
  }

  lemma TermsStart(n: Net)
    requires Start(n) && SameControl(n)
    ensures Terms(n)
  {
  }
}
