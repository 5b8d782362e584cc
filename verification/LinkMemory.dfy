/**
 The modes a station remembers, from session to session. Over every run what it remembers towards a peer is
 the fastest mode its acknowledgements have proved there; a listener begins the next session sending in that
 mode if the caller has it, and a caller if the listener has it, and otherwise in the control mode.
 */
module LinkMemory {
  import opened Common
  import opened LinkStation
  import opened LinkNet
  import opened LinkSession
  import opened LinkRuns
  import opened LinkMessages
  import opened LinkActs
  import opened LinkTerms

  // -- what has been proved ------------------------------------------------------------------

  /** An act by which station `s` learns that its mode gets through to `p`. */
  predicate Proves(s: Station, a: Act, p: string) {
    a.Hear? && s.task.Sending? && s.hand.Some? && s.peer == Some(p) && Confirms(s, a.frame)
  }

  /** The modes proved towards `p` in a list of acts, with the one remembered before them. */
  function ProvedTo(s0: Station, acts: seq<Act>, p: string): set<nat>
    decreases |acts|
  {
    if acts == [] then (if p in s0.lastGood then {s0.lastGood[p]} else {})
    else
      var init, a := acts[..|acts| - 1], acts[|acts| - 1];
      var before := Perform(s0, init);
      ProvedTo(s0, init, p) + if before.Some? && Proves(before.value.st, a, p) then {before.value.st.tx.id} else {}
  }

  /** The fastest of `ids` on the ladder, or the control mode if none is on it. */
  ghost predicate Fastest(r: Registry, ids: set<nat>, id: nat) {
    if exists x :: x in ids && r.Supports(x)
    then id in ids && r.Supports(id) && forall x :: x in ids && r.Supports(x) ==> r.Index(x) <= r.Index(id)
    else id == r.control.id
  }

  /** There is just one. */
  lemma FastestIsOne(r: Registry, ids: set<nat>, a: nat, b: nat)
    requires Fastest(r, ids, a) && Fastest(r, ids, b)
    ensures a == b
  {
  }

  /** As constructed. */
  ghost predicate PoweredUp(s: Station) {
    s == AtPowerUp(s.call, s.reg, s.lastGood) && s.reg.Valid()
  }

  /** A station on its ladder whose memory of `p` is the fastest mode proved. */
  ghost predicate Remembering(s: Station, ids: set<nat>, p: string) {
    && s.reg.Valid() && s.tx in s.reg.modes
    && (if p in s.lastGood then
          && s.lastGood[p] in ids
          && forall x :: x in ids && s.reg.Supports(x) ==>
               s.reg.Supports(s.lastGood[p]) && s.reg.Index(x) <= s.reg.Index(s.lastGood[p])
        else ids == {})
  }

  predicate Confirming(s: Station, a: Act) {
    a.Hear? && s.task.Sending? && s.hand.Some? && Confirms(s, a.frame)
  }

  /** Nothing but an ACK that confirms the chunk in hand changes the memory, and the ladder stays. */
  lemma MemoryOnly(s: Station, a: Act)
    requires Can(s, a)
    ensures var t := Do(s, a).st;
      && t.reg == s.reg && t.call == s.call
      && (if Confirming(s, a) then t.lastGood == RememberMode(s) && t.tx == s.tx else t.lastGood == s.lastGood)
  {
    if a.Hear? {
      HearDoes(s, a.frame);
      hide Do, Can;
      HearMemory(s, a.frame);
    } else {
      hide CutAt, Registry.Step, Registry.Ids, Remembered;
    }
  }

  lemma HearMemory(s: Station, f: Frame)
    requires Hearing(s)
    ensures var t := React(s, f).st;
      && t.reg == s.reg && t.call == s.call
      && (if Confirming(s, Hear(f)) then t.lastGood == RememberMode(s) && t.tx == s.tx else t.lastGood == s.lastGood)
  {
    hide Registry.Resolve, Registry.Index, Registry.Supports, Registry.Ids, Answer, RememberMode, CutAt, SeqAhead;
    if f.Data? {
      DataMemory(s, f);
      hide React, HandleData;
    } else if s.task.Calling? || s.task.Answering? {
      hide HandleData, TakeAck;
    } else {
      hide HandleData, Accept, TakeConnectAck;
    }
  }

  lemma DataMemory(s: Station, f: Frame)
    requires Hearing(s) && f.Data?
    ensures var t := React(s, f).st; t.reg == s.reg && t.call == s.call && t.lastGood == s.lastGood
  {
    DataFields(s, f);
    hide HandleData, Accept, TakeConnectAck, TakeAck, CutAt;
  }

  lemma StaysOnLadder(s: Station, a: Act)
    requires Can(s, a) && s.reg.Valid() && s.tx in s.reg.modes
    ensures Do(s, a).st.tx in s.reg.modes
  {
    hide Registry.Step, Registry.Index, Registry.Supports, RememberMode, CutAt;
    if a.Hear? && a.frame.ConnectAck? { ResolveKnown(s.reg, a.frame.accepted); }
    if a.Hear? && a.frame.Connect? { ResolveKnown(s.reg, Answer(s, a.frame).own); }
  }

  lemma RemembersOn(s: Station, a: Act, ids: set<nat>, p: string)
    requires Can(s, a) && Remembering(s, ids, p)
    ensures Remembering(Do(s, a).st, ids + if Proves(s, a, p) then {s.tx.id} else {}, p)
  {
    MemoryOnly(s, a);
    StaysOnLadder(s, a);
    if s.peer.Some? { KeepsFastest(s); }
    RungOf(s.reg, s.tx);
    hide Do, Can, Registry.Index, Registry.IndexFrom, RememberMode, Confirms;
  }

  /** What a station remembers is the fastest mode proved, whatever it has done. */
  lemma {:induction false} RemembersFastest(s0: Station, acts: seq<Act>, log: Log, p: string)
    requires PoweredUp(s0) && Perform(s0, acts) == Some(log)
    ensures log.st.reg == s0.reg && log.st.call == s0.call && Remembering(log.st, ProvedTo(s0, acts, p), p)
    ensures Fastest(s0.reg, ProvedTo(s0, acts, p), Remembered(log.st, p))
    decreases |acts|
  {
    hide Do, Can, Registry.Index, Registry.IndexFrom, Remembering;
    if acts == [] {
      PowerUpRemembers(s0, p);
    } else {
      var init, a := acts[..|acts| - 1], acts[|acts| - 1];
      var before := Perform(s0, init).value;
      RemembersFastest(s0, init, before, p);
      MemoryOnly(before.st, a);
      RemembersOn(before.st, a, ProvedTo(s0, init, p), p);
    }
    FastestRemembered(log.st, ProvedTo(s0, acts, p), p);
  }

  lemma PowerUpRemembers(s: Station, p: string)
    requires PoweredUp(s)
    ensures Remembering(s, if p in s.lastGood then {s.lastGood[p]} else {}, p)
  {
  }

  lemma FastestRemembered(s: Station, ids: set<nat>, p: string)
    requires Remembering(s, ids, p)
    ensures Fastest(s.reg, ids, Remembered(s, p))
  {
    hide Registry.Index, Registry.IndexFrom;
  }

  // -- how the next session begins -------------------------------------------------------------

  /** What a listener with ladder `r` settles for the caller's way when mode `proposed` is asked for. */
  function Granting(r: Registry, proposed: nat): nat {
    if r.Supports(proposed) then proposed else r.control.id
  }

  /** A listener's own way: the mode it remembers if the caller has it, and otherwise the control mode. */
  lemma Resumes(s: Station, c: Frame)
    requires s.reg.Valid() && c.Connect?
    ensures var t, m := Accept(s, c).st, Remembered(s, c.src);
      && t.tx.id == (if m in c.modes then m else s.reg.control.id)
      && t.rx == s.reg.Resolve(Granting(s.reg, c.proposed)) && t.peer == Some(c.src) && t.state == CONNECTED
  {
    ControlKnown(s.reg);
  }

  /**
   A listener begins every session sending in the fastest mode its acknowledgements have ever proved towards
   the caller, if the caller offers it, and otherwise in the control mode.
   */
  lemma ListenerResumes(n0: Net, moves: seq<Move>, n: Net, c: Frame)
    requires PoweredUp(n0.me) && Reaches(n0, moves, n)
    requires n.me.task.Answering? && CanAct(n, Hear(c)) && c.Connect? && c.dst == n.me.call
    ensures var t := Played(n, Hear(c)).me;
      && t.state == CONNECTED && t.role == IRS && t.peer == Some(c.src) && t.sid == c.sid
      && exists m: nat :: Fastest(t.reg, ProvedTo(n0.me, MyActs(moves), c.src), m)
                          && t.tx.id == if m in c.modes then m else t.reg.control.id
  {
    NetPerforms(n0, moves, n);
    var log := Perform(n0.me, MyActs(moves)).value;
    RemembersFastest(n0.me, MyActs(moves), log, c.src);
    RememberingMeans(n.me, ProvedTo(n0.me, MyActs(moves), c.src), c.src);
    HearPlays(n, c);
    Resumes(n.me, c);
    AnswersCalls(n.me, c);
    hide Reaches, Perform, MyActs, ProvedTo, Fastest, Accept, React, Played, CanAct, Remembering, Remembered;
  }

  lemma RememberingMeans(s: Station, ids: set<nat>, p: string)
    requires Remembering(s, ids, p)
    ensures s.reg.Valid() && s.tx in s.reg.modes
  {
  }

  lemma AnswersCalls(s: Station, c: Frame)
    requires s.task.Answering? && c.Connect? && c.dst == s.call
    ensures React(s, c) == Accept(s, c) && Accept(s, c).st.reg == s.reg
    ensures Accept(s, c).st.role == IRS && Accept(s, c).st.sid == c.sid
  {
    hide Answer, Registry.Resolve;
  }

  // -- the caller's way ----------------------------------------------------------------------

  /** The answer a station with ladder `r` gives to a call, as to the caller's way. */
  predicate Grants(f: Frame, body: Frame, r: Registry) {
    body.Connect? && f.ConnectAck? && f.src == body.dst && f.accepted == Granting(r, body.proposed)
  }

  /** While a call is being tried: what it proposes is what is remembered, and every answer to it grants that. */
  ghost predicate Due(n: Net) {
    n.me.task.Calling? ==>
      var body := n.me.task.body;
      && body.Connect? && body == CallBody(n.me, body.dst, n.me.sid)
      && (forall i :: 0 <= i < |n.out| && n.out[i].frame.Connect? && n.out[i].frame.sid == n.me.sid ==>
            n.out[i].frame == body)
      && (forall i :: 0 <= i < |n.inc| && IsAck(n.inc[i], n.me.sid) ==> Grants(n.inc[i].frame, body, n.you.reg))
      && (n.you.ackBody.Some? && n.you.ackBody.value.ConnectAck? && n.you.ackBody.value.sid == n.me.sid ==>
            Grants(n.you.ackBody.value, body, n.you.reg))
  }

  /** No answer a station holds ready is to an id not yet issued. */
  ghost predicate Dated(n: Net) {
    n.you.ackBody.Some? && n.you.ackBody.value.ConnectAck? ==> n.you.ackBody.value.sid < n.next
  }

  lemma MineDue(n: Net, a: Act)
    requires Inv(n) && Due(n) && Dated(n) && CanAct(n, a)
    ensures Due(Played(n, a)) && Dated(Played(n, a))
  {
    hide RecutSafe;
    MemoryOnly(n.me, a);
    assert Issued(n) && Shape(n.me);
    hide Inv;
    if a.Call? {
    } else {
      hide Answer, RememberMode, Registry.Resolve;
      StillCalling(n.me, a);
      hide Do, Can;
    }
  }

  /** A station that is calling has been since it was called upon to, and keys nothing else of the kind. */
  lemma StillCalling(s: Station, a: Act)
    requires Can(s, a) && !a.Call? && Shape(s)
    ensures var d := Do(s, a);
      d.st.task.Calling? ==>
        s.task.Calling? && d.st.task == s.task && d.st.sid == s.sid && !Confirming(s, a)
        && (d.out.Some? && d.out.value.Connect? ==> d.out.value == s.task.body)
  {
  }

  /** What the peer does: its own answers to this call grant what it asks, and it keys no CONNECT of this station's. */
  lemma YoursDue(n: Net, a: Act)
    requires Inv(n) && Due(n) && Dated(n) && CanAct(Swap(n), a)
    ensures var after := Swap(Played(Swap(n), a)); Due(after) && Dated(after)
  {
    MemoryOnly(n.you, a);
    assert Issued(n) && Shape(n.you);
    Replies(n.you, a);
    YoursPlayed(n, a);
    if a.Hear? && n.you.task.Answering? && a.frame.Connect? && a.frame.dst == n.you.call {
      AnswerGrants(n.you, a.frame);
    }
    hide RecutSafe, Inv, Side, Do, Can, Answer, Remembered, Registry.Ids, CanAct, Played, Granting;
  }

  lemma YoursPlayed(n: Net, a: Act)
    requires CanAct(Swap(n), a)
    ensures var d, after := Do(n.you, a), Swap(Played(Swap(n), a));
      && after.me == n.me && after.you == d.st && after.inc == n.inc + Sent(n.you, d.out) && n.next <= after.next
      && (after.out == n.out || after.out == [] || (a.Hear? && n.out != [] && after.out == n.out[1..]))
      && (a.Hear? ==> n.out != [] && n.out[0].frame == a.frame)
  {
    hide RecutSafe, Do, Can;
  }

  /** The CONNECT_ACKs a station keys or keeps: its answer to the CONNECT in hand, or the one it has. */
  lemma Replies(s: Station, a: Act)
    requires Can(s, a) && Shape(s)
    ensures var d, answers := Do(s, a), a.Hear? && s.task.Answering? && a.frame.Connect? && a.frame.dst == s.call;
      && (if answers then d.st.ackBody == Some(Answer(s, a.frame)) && d.out == d.st.ackBody
          else
            && (d.st.ackBody == s.ackBody || d.st.ackBody.None?)
            && (d.out.Some? && d.out.value.ConnectAck? ==> d.out == s.ackBody))
  {
    hide Registry.Resolve, Registry.Index, Registry.Supports, Registry.Ids, Answer, RememberMode, CutAt, SeqAhead;
  }

  lemma AnswerGrants(s: Station, c: Frame)
    requires c.Connect? && c.dst == s.call
    ensures Grants(Answer(s, c), c, s.reg)
  {
  }

  lemma DueMove(n: Net, m: Move)
    requires Inv(n) && Due(n) && Dated(n) && CanMove(n, m)
    ensures Due(Moved(n, m)) && Dated(Moved(n, m))
  {
    match m
    case Mine(a) => MineDue(n, a);
    case Yours(a) => YoursDue(n, a);
    case LoseOut(k) =>
    case LoseInc(k) =>
    hide Inv, RecutSafe, Played, CanAct;
  }

  lemma {:induction false} DueRun(n: Net, moves: seq<Move>, last: Net)
    requires Inv(n) && Due(n) && Dated(n) && Reaches(n, moves, last)
    ensures Due(last) && Dated(last)
    decreases |moves|
  {
    if moves != [] {
      hide Inv, Due, Dated, CanMove, Moved;
      MoveKeeps(n, moves[0]);
      DueMove(n, moves[0]);
      DueRun(Moved(n, moves[0]), moves[1..], last);
    }
  }

  lemma DueStart(n: Net)
    requires Start(n)
    ensures Inv(n) && Due(n) && Dated(n)
  {
    StartFull(n);
  }

  /** A call that is answered: the session is with the station called, and its way is the one granted. */
  lemma TakesGrant(n: Net, f: Frame)
    requires Due(n) && n.me.task.Calling? && CanAct(n, Hear(f)) && n.me.reg.Valid()
    requires f.ConnectAck? && f.dst == n.me.call && f.sid == n.me.sid
    ensures var t, body := React(n.me, f).st, n.me.task.body;
      && body.Connect? && t.state == CONNECTED && t.role == ISS && t.peer == Some(body.dst) && t.sid == n.me.sid
      && t.reg == n.me.reg && t.tx == t.reg.Resolve(Granting(n.you.reg, Remembered(n.me, body.dst)))
  {
    assert IsAck(n.inc[0], n.me.sid) && n.inc[0].frame == f;
    hide Registry.Resolve, Registry.Index, Registry.Supports, Granting, RecutSafe;
  }

  /**
   A caller begins every session sending in the fastest mode its acknowledgements have ever proved towards
   the station called, if that has it, and otherwise in the listener's control mode.
   */
  lemma CallerResumes(n0: Net, moves: seq<Move>, n: Net, f: Frame)
    requires Start(n0) && PoweredUp(n0.me) && Reaches(n0, moves, n)
    requires n.me.task.Calling? && CanAct(n, Hear(f)) && f.ConnectAck? && f.dst == n.me.call && f.sid == n.me.sid
    ensures var t, body := Played(n, Hear(f)).me, n.me.task.body;
      && body.Connect? && t.state == CONNECTED && t.role == ISS && t.peer == Some(body.dst) && t.sid == n.me.sid
      && exists m: nat :: Fastest(t.reg, ProvedTo(n0.me, MyActs(moves), body.dst), m)
                          && t.tx == t.reg.Resolve(Granting(n.you.reg, m))
                          && (SameControl(n0) ==> t.tx.id == Granting(n.you.reg, m))
  {
    NetPerforms(n0, moves, n);
    DueStart(n0);
    DueRun(n0, moves, n);
    var log, body := Perform(n0.me, MyActs(moves)).value, n.me.task.body;
    CallsWho(n);
    RemembersFastest(n0.me, MyActs(moves), log, body.dst);
    RememberingMeans(n.me, ProvedTo(n0.me, MyActs(moves), body.dst), body.dst);
    HearPlays(n, f);
    TakesGrant(n, f);
    if SameControl(n0) { GrantKnown(n0, moves, n, body.dst); }
    hide Reaches, Perform, MyActs, ProvedTo, Fastest, React, Played, CanAct, Remembering, Remembered, Due, Granting;
    hide Registry.Resolve, SameControl;
  }

  lemma CallsWho(n: Net)
    requires Due(n) && n.me.task.Calling?
    ensures n.me.task.body.Connect?
  {
    hide Grants;
  }

  /** Between stations with one control mode what is granted is known to the caller. */
  lemma GrantKnown(n0: Net, moves: seq<Move>, n: Net, p: string)
    requires Start(n0) && Reaches(n0, moves, n) && SameControl(n0)
    ensures n.me.reg.Resolve(Granting(n.you.reg, Remembered(n.me, p))).id == Granting(n.you.reg, Remembered(n.me, p))
  {
    TermsStart(n0);
    TermsRun(n0, moves, n);
    TermsKnow(n);
    ControlKnown(n.me.reg);
    hide Terms, Reaches;
  }
}
