/**
 The history of a run: for every session id, each station as it was when it was last in that session.
 What a session delivered stays true after either end has left it, and is kept here per session.
 */
module LinkHistory {
  import opened Common
  import opened LinkStation
  import opened LinkNet
  import opened LinkSession
  import opened LinkLanes
  import opened LinkRuns
  import opened LinkMessages
  import opened LinkOrphans

  type Past = map<nat, Station>

  /**
   `blurred` are the sessions in which a chunk was cut again although the other end, still there, had
   accepted the old cut, or a copy of it was queued; `parted` those in which the other end had accepted
   it and left; `granted` those in which a FLOOR_GRANT was keyed. `mySid` is the last session, 0 if none.
   */
  datatype Chronicle = Chronicle(net: Net, mine: Past, yours: Past, blurred: set<nat>, parted: set<nat>,
                                 granted: set<nat>, mySid: nat, yourSid: nat)

  function Flip(c: Chronicle): Chronicle {
    Chronicle(Swap(c.net), c.yours, c.mine, c.blurred, c.parted, c.granted, c.yourSid, c.mySid)
  }

  function Recorded(past: Past, s: Station): Past {
    if s.state.CONNECTED? then past[s.sid := s] else past
  }

  function Blurs(c: Chronicle, a: Act): set<nat> {
    if a.Recut? && !RecutSafe(c.net) then {c.net.me.sid} else {}
  }

  function Parts(c: Chronicle, a: Act): set<nat> {
    var s := c.net.me.sid;
    if a.Recut? && s in c.yours && |c.yours[s].taken| != |c.net.me.acked| then {s} else {}
  }

  function Grants(c: Chronicle, a: Act): set<nat>
    requires Can(c.net.me, a)
  {
    if Do(c.net.me, a).out == Some(FloorGrant) then {c.net.me.sid} else {}
  }

  function Acted(c: Chronicle, a: Act): Chronicle
    requires CanAct(c.net, a)
  {
    var n := Played(c.net, a);
    Chronicle(n, Recorded(c.mine, n.me), c.yours, c.blurred + Blurs(c, a), c.parted + Parts(c, a),
              c.granted + Grants(c, a), if n.me.state.CONNECTED? then n.me.sid else c.mySid, c.yourSid)
  }

  function Told(c: Chronicle, m: Move): (t: Chronicle)
    requires CanMove(c.net, m)
    ensures t.net == Moved(c.net, m)
  {
    match m
    case Mine(a) => Acted(c, a)
    case Yours(a) => Flip(Acted(Flip(c), a))
    case _ => c.(net := Moved(c.net, m))
  }

  /** The chronicle after a run in which failed calls end their session. */
  ghost predicate Tells(c: Chronicle, moves: seq<Move>, last: Chronicle)
    decreases |moves|
  {
    if moves == [] then c == last
    else CanMove(c.net, moves[0]) && ObedientMove(c.net, moves[0]) && Tells(Told(c, moves[0]), moves[1..], last)
  }

  function Blank(n: Net): Chronicle {
    Chronicle(n, map[], map[], {}, {}, {}, 0, 0)
  }

  /** Every run has its chronicle, and a chronicle's net is where its run leads. */
  lemma {:induction false} Chronicled(c: Chronicle, moves: seq<Move>, n: Net) returns (last: Chronicle)
    requires ReachesObediently(c.net, moves, n)
    ensures Tells(c, moves, last) && last.net == n
    decreases |moves|
  {
    if moves == [] {
      last := c;
    } else {
      hide Told, Moved, CanMove;
      last := Chronicled(Told(c, moves[0]), moves[1..], n);
    }
  }

  lemma {:induction false} TellsOf(c: Chronicle, moves: seq<Move>, last: Chronicle)
    requires Tells(c, moves, last)
    ensures ReachesObediently(c.net, moves, last.net)
    decreases |moves|
  {
    if moves != [] {
      hide Told, Moved, CanMove;
      TellsOf(Told(c, moves[0]), moves[1..], last);
    }
  }

  // -- what a chronicle keeps ---------------------------------------------------------------

  /** The net with its exactness counted from the session now going on. */
  function Tint(c: Chronicle): Net {
    c.net.(exact := !(c.net.me.state.CONNECTED? && c.net.me.sid in c.blurred)
                    && !(c.net.you.state.CONNECTED? && c.net.you.sid in c.blurred))
  }

  predicate SameLogs(s: Station, t: Station) {
    s.given == t.given && s.sent == t.sent && s.heard == t.heard
  }

  ghost predicate Records(c: Chronicle) {
    var s := c.net.me;
    && (s.state.CONNECTED? ==> s.sid in c.mine && c.mine[s.sid] == s && c.mySid == s.sid)
    && (s.state.CONNECTING? ==> s.sid !in c.mine)
    && (forall k :: k in c.mine ==> 0 < k < c.net.next && Ledger(c.mine[k]))
    && (c.mySid > 0 ==> c.mySid in c.mine && SameLogs(s, c.mine[c.mySid]))
  }

  /** Frames come from stations that were in their session. */
  ghost predicate Sources(c: Chronicle) {
    forall i :: 0 <= i < |c.net.out| ==>
      var f := c.net.out[i];
      && (Plane(f.frame) ==> f.tag in c.mine)
      && (f.frame.ConnectAck? ==> f.frame.sid in c.mine)
      && (f.frame.FloorGrant? ==> f.tag in c.granted)
  }

  predicate Untouched(s: Station) {
    s.taken == [] && s.acked == [] && s.hand.None?
  }

  /** A listener whose caller never came into the session has done nothing in it. */
  ghost predicate Unmet(c: Chronicle) {
    var s := c.net.me;
    && (s.state.CONNECTED? && s.sid !in c.yours ==> !s.caller && s.taken == [] && s.acked == [])
    && (s.state.CONNECTING? && s.sid in c.yours ==> Untouched(c.yours[s.sid]))
    && (forall k :: k in c.mine && k !in c.yours ==> c.mine[k].taken == [] && c.mine[k].acked == [])
  }

  ghost predicate Apart(c: Chronicle, y: Station, k: nat)
    requires k in c.yours
  {
    Orphaned(k !in c.blurred, k !in c.blurred && k !in c.parted, c.yours[k], y, c.net.inc, k)
  }

  /** This station, or the listener it may become, and the last the other end was in the same session. */
  ghost predicate Alone(c: Chronicle) {
    var s := c.net.me;
    && (s.state.CONNECTED? && s.sid in c.yours ==> Apart(c, s, s.sid))
    && (s.task.Answering? ==>
          forall i :: 0 <= i < |c.net.inc| && c.net.inc[i].frame.Connect? && c.net.inc[i].frame.sid in c.yours ==>
            Apart(c, Newborn(s), c.net.inc[i].frame.sid))
  }

  /** What `x` sent and `y` received in one session. */
  ghost predicate Delivered(fair: bool, exact: bool, x: Station, y: Station) {
    && |x.acked| <= |y.taken| <= |x.acked| + 1
    && (fair ==> y.heard <= x.given && Flat(y.heard) + Partial(y) <= Flat(x.given))
    && (exact ==> Counts(true, x, y) && x.sent <= y.heard)
  }

  ghost predicate Story(c: Chronicle) {
    forall k :: k in c.mine && k in c.yours ==>
      Delivered(k !in c.blurred, k !in c.blurred && k !in c.parted, c.mine[k], c.yours[k])
  }

  /** Until the floor is first granted, the caller holds it. */
  ghost predicate Roles(c: Chronicle) {
    var s := c.net.me;
    s.state.CONNECTED? && s.sid !in c.granted ==> s.role == if s.caller then ISS else IRS
  }

  ghost predicate Chapter(c: Chronicle) {
    Records(c) && Sources(c) && Unmet(c) && Alone(c) && Story(c) && Roles(c)
  }

  ghost predicate True(c: Chronicle) {
    Full(Tint(c)) && Ledgers(c.net) && Chapter(c) && Chapter(Flip(c))
  }

  // -- exactness, session by session ----------------------------------------------------------

  lemma FullTint(n: Net, e: bool)
    requires Full(n)
    requires e ==> n.exact || (!n.me.state.CONNECTED? && !n.you.state.CONNECTED?)
    ensures Full(n.(exact := e))
  {
    hide RecutSafe;
    InvTint(n, e);
    RestTint(n, e);
    LinkedTint(n, e);
    LinkedTint(Swap(n), e);
  }

  lemma InvTint(n: Net, e: bool)
    requires Inv(n)
    ensures Inv(n.(exact := e))
  {
  }

  lemma RestTint(n: Net, e: bool)
    requires Virgin(n) && Agreed(n) && Virgin(Swap(n)) && Agreed(Swap(n))
    ensures var t := n.(exact := e); Virgin(t) && Agreed(t) && Virgin(Swap(t)) && Agreed(Swap(t))
  {
  }

  lemma LinkedTint(n: Net, e: bool)
    requires Linked(n) && (e ==> n.exact || !n.me.state.CONNECTED?)
    ensures Linked(n.(exact := e))
  {
    if Partner(n).Some? && !e { PairTint(n.(you := Partner(n).value), n.me.sid); }
  }

  lemma PairTint(n: Net, s: nat)
    requires Pair(n, s)
    ensures Pair(n.(exact := false), s)
  {
  }

  lemma TintAct(c: Chronicle, a: Act)
    requires Full(Tint(c)) && CanAct(c.net, a) && Obedient(c.net, a)
    ensures Full(Tint(Acted(c, a)))
  {
    var c', n := Acted(c, a), Tint(c);
    var n' := Played(n, a);
    assert RecutSafe(n) == RecutSafe(c.net);
    assert Inv(n) && Together(n) && Together(Swap(n));
    hide RecutSafe, Full, Do;
    ActFull(n, a);
    assert n' == c'.net.(exact := n'.exact);
    assert Tint(c') == n'.(exact := Tint(c').exact);
    SharperAct(c, a);
    FullTint(n', Tint(c').exact);
  }

  lemma SharperAct(c: Chronicle, a: Act)
    requires CanAct(c.net, a) && Full(Tint(c))
    ensures var c' := Acted(c, a);
      Tint(c').exact ==>
        Played(Tint(c), a).exact || (!c'.net.me.state.CONNECTED? && !c'.net.you.state.CONNECTED?)
  {
    assert Together(Tint(c)) && Shape(c.net.me);
    assert RecutSafe(Tint(c)) == RecutSafe(c.net);
    hide RecutSafe, Full;
    StaysIn(c.net.me, a);
    hide Do, Can, Shape;
  }

  /** A session is left before another is entered, and only one in it can cut again. */
  lemma StaysIn(s: Station, a: Act)
    requires Shape(s) && Can(s, a)
    ensures s.state.CONNECTED? && Do(s, a).st.state.CONNECTED? ==> Do(s, a).st.sid == s.sid
    ensures a.Recut? ==> s.state.CONNECTED? && Do(s, a).st.state.CONNECTED?
  {
    hide Registry.Resolve, Registry.Step, Answer, CutAt;
  }

  // -- what one act of a station does to its place in a session -----------------------------------

  /** What an act may change: this station, what it records, and the queues. */
  ghost predicate Shell(c: Chronicle, c': Chronicle, q: Queue) {
    && c'.net.you == c.net.you && c'.yours == c.yours && c'.yourSid == c.yourSid && c.net.next <= c'.net.next
    && |q| <= 1 && c'.net.out == c.net.out + q
    && (c'.net.inc == c.net.inc || c'.net.inc == [] || (c.net.inc != [] && c'.net.inc == c.net.inc[1..]))
    && c'.mine == Recorded(c.mine, c'.net.me)
    && c'.mySid == (if c'.net.me.state.CONNECTED? then c'.net.me.sid else c.mySid)
    && c.granted <= c'.granted
    && c.blurred <= c'.blurred <= c.blurred + {c.net.me.sid} && c.parted <= c'.parted <= c.parted + {c.net.me.sid}
    && (c'.blurred != c.blurred || c'.parted != c.parted ==> c.net.me.state.CONNECTED? && c'.net.me.state.CONNECTED?)
  }

  /** Frames of a session are keyed only in it. */
  ghost predicate Keys(c: Chronicle, c': Chronicle, q: Queue) {
    var s, t := c.net.me, c'.net.me;
    q != [] ==>
      var f := q[0];
      && (Plane(f.frame) ==> s.state.CONNECTED? && t.state.CONNECTED? && f.tag == s.sid)
      && (f.frame.ConnectAck? ==> t.state.CONNECTED? && f.frame.sid == t.sid)
      && (f.frame.Connect? ==> s.state.CONNECTING? && f.frame.sid == s.sid && t == s)
      && (f.frame.FloorGrant? ==> s.sid in c'.granted)
      && (!t.state.CONNECTED? ==> Aside(f))
  }

  /** How a station comes into a session, waits for one and leaves it. */
  ghost predicate Turns(c: Chronicle, c': Chronicle) {
    var s, t := c.net.me, c'.net.me;
    && (!t.state.CONNECTED? ==> SameLogs(s, t))
    && (t.state.CONNECTING? ==> (s.state.CONNECTING? && t.sid == s.sid) || c.net.next <= t.sid)
    && (s.state.CONNECTED? && t.state.CONNECTED? ==> t.sid == s.sid && t.caller == s.caller && s.given <= t.given)
    && (t.task.Answering? ==> s.task.Answering? || c'.net.inc == [])
    && (!s.state.CONNECTED? && t.state.CONNECTED? ==>
          && Untouched(t) && t.given == [] && t.sent == [] && t.heard == [] && t.partial.None?
          && t.role == (if t.caller then ISS else IRS)
          && c.net.inc != [] && c'.net.inc == c.net.inc[1..]
          && (if t.caller then s.state.CONNECTING? && t.sid == s.sid && IsAck(c.net.inc[0], s.sid)
              else s.task.Answering? && IsCall(c.net.inc[0], t.sid)))
  }

  /** What a station staying in its session does with its counts and the chunk in hand. */
  ghost predicate Inward(c: Chronicle, c': Chronicle) {
    var s, t, inc := c.net.me, c'.net.me, c.net.inc;
    s.state.CONNECTED? && t.state.CONNECTED? ==>
      && (c'.net.inc == inc || (inc != [] && c'.net.inc == inc[1..]))
      && (if t.taken == s.taken && t.acked == s.acked then
            t.hand != s.hand ==> t.hand.Some? && (s.hand.None? || CutsAgain(c, c'))
          else
            && inc != [] && c'.net.inc == inc[1..]
            && var f := inc[0].frame;
              || (f.Data? && f.seqNo == s.rxExpect && t.taken == s.taken + [Chunk(f.chunk, f.eof)]
                  && t.acked == s.acked && t.hand == s.hand)
              || (f.DataAck? && f.answered == s.txSeq && s.hand.Some? && t.hand.None?
                  && t.acked == s.acked + [s.hand.value] && t.taken == s.taken))
  }

  ghost predicate CutsAgain(c: Chronicle, c': Chronicle) {
    var s := c.net.me;
    s.sid in c.yours && |c.yours[s.sid].taken| != |s.acked| ==> s.sid in c'.parted
  }

  ghost predicate Steps(c: Chronicle, c': Chronicle, q: Queue) {
    Shell(c, c', q) && Keys(c, c', q) && Turns(c, c') && Inward(c, c')
  }

  /** What a station keys: frames of the session only while in it. */
  lemma Keyed(s: Station, a: Act)
    requires Shape(s) && Can(s, a)
    requires a.Hear? && IsDuplicateConnect(s, a.frame) && !s.task.Answering? ==> !s.caller
    ensures var d := Do(s, a);
      d.out.Some? ==>
        var f := Sent(s, d.out)[0];
        && (Plane(f.frame) ==> s.state.CONNECTED? && d.st.state.CONNECTED? && f.tag == s.sid)
        && (f.frame.ConnectAck? ==> d.st.state.CONNECTED? && f.frame.sid == d.st.sid)
        && (f.frame.Connect? ==> s.state.CONNECTING? && f.frame.sid == s.sid && d.st == s)
        && (f.frame.FloorGrant? ==> d.out == Some(FloorGrant))
        && (!d.st.state.CONNECTED? ==> Aside(f))
  {
    hide Registry.Resolve, Registry.Step, CutAt, Remembered;
  }

  lemma LogsStay(s: Station, a: Act)
    requires Shape(s) && Can(s, a) && !Do(s, a).st.state.CONNECTED?
    ensures SameLogs(s, Do(s, a).st)
  {
    if a.Hear? {
      HeardLogsStay(s, a.frame);
      hide React;
    } else {
      hide Registry.Resolve, Registry.Step, CutAt, Remembered, React;
    }
  }

  lemma HeardLogsStay(s: Station, f: Frame)
    requires Shape(s) && Hearing(s) && !React(s, f).st.state.CONNECTED?
    ensures SameLogs(s, React(s, f).st)
  {
    hide Registry.Resolve, Registry.Step, CutAt, Remembered;
  }

  lemma WaitsStay(s: Station, a: Act)
    requires Shape(s) && Can(s, a)
    ensures Do(s, a).st.state.CONNECTING? && !a.Call? ==> s.state.CONNECTING? && Do(s, a).st.sid == s.sid
    ensures a.Call? ==> Do(s, a).st.sid == a.newSid
    ensures Do(s, a).st.task.Answering? && !s.task.Answering? ==> a.Listen?
  {
    if a.Hear? {
      HearingStays(s, a.frame);
      hide React;
    } else {
      hide Registry.Resolve, Registry.Step, CutAt, Remembered, React;
    }
  }

  lemma HearingStays(s: Station, f: Frame)
    requires Shape(s) && Hearing(s)
    ensures React(s, f).st.state.CONNECTING? ==> s.state.CONNECTING? && React(s, f).st.sid == s.sid
    ensures React(s, f).st.task.Answering? ==> s.task.Answering?
  {
    hide Registry.Resolve, Registry.Step, CutAt, Remembered;
  }

  /** A station that comes into a session: by the answer to its call, or by answering one. */
  lemma Begins(s: Station, a: Act)
    requires Shape(s) && Can(s, a) && !s.state.CONNECTED? && Do(s, a).st.state.CONNECTED?
    ensures a.Hear?
    ensures var t := Do(s, a).st;
      && Untouched(t) && t.given == [] && t.sent == [] && t.heard == [] && t.partial.None?
      && t.role == (if t.caller then ISS else IRS)
      && (t.caller ==> s.state.CONNECTING? && t.sid == s.sid && a.frame.ConnectAck? && a.frame.sid == s.sid)
      && (!t.caller ==> s.task.Answering? && a.frame.Connect? && a.frame.dst == s.call && t.sid == a.frame.sid)
  {
    hide Registry.Resolve, Registry.Step, CutAt, Remembered;
  }

  lemma Stays(s: Station, a: Act)
    requires Shape(s) && s.state.CONNECTED? && Can(s, a) && Do(s, a).st.state.CONNECTED?
    ensures Do(s, a).st.caller == s.caller && s.given <= Do(s, a).st.given
    ensures !a.Call? && !a.Listen?
  {
    if a.Hear? {
      HearingKeeps(s, a.frame);
      hide React;
    } else {
      hide Registry.Resolve, Registry.Step, CutAt, Remembered, React;
    }
  }

  lemma HearingKeeps(s: Station, f: Frame)
    requires Shape(s) && s.state.CONNECTED? && Hearing(s)
    ensures React(s, f).st.caller == s.caller && React(s, f).st.given == s.given
  {
    hide Registry.Resolve, Registry.Step, CutAt, Remembered;
  }

  lemma HandStays(s: Station, a: Act)
    requires Shape(s) && s.state.CONNECTED? && Can(s, a) && !a.Resume? && !a.Hear? && Do(s, a).st.state.CONNECTED?
    requires s.hand.Some? ==> s.task.Sending? || s.task.Failed? || s.task.Leaving?
    ensures var t := Do(s, a).st;
      && t.taken == s.taken && t.acked == s.acked
      && (t.hand != s.hand ==> t.hand.Some? && (s.hand.None? || a.Recut?))
  {
    hide Registry.Resolve, Registry.Step, CutAt, Remembered, React;
  }

  /** The chunk in hand goes only with its acknowledgement, and counts move only with a frame. */
  lemma HearingMoves(s: Station, f: Frame)
    requires Shape(s) && s.state.CONNECTED? && Hearing(s) && React(s, f).st.state.CONNECTED?
    requires s.hand.Some? ==> s.task.Sending? || s.task.Failed? || s.task.Leaving?
    ensures var t := React(s, f).st;
      if t.taken == s.taken && t.acked == s.acked then t.hand != s.hand ==> t.hand.Some? && s.hand.None?
      else
        || (f.Data? && f.seqNo == s.rxExpect && t.taken == s.taken + [Chunk(f.chunk, f.eof)]
            && t.acked == s.acked && t.hand == s.hand)
        || (f.DataAck? && f.answered == s.txSeq && s.hand.Some? && t.hand.None?
            && t.acked == s.acked + [s.hand.value] && t.taken == s.taken)
  {
    hide Registry.Resolve, Registry.Step, CutAt, Remembered;
  }

  lemma ActSteps(c: Chronicle, a: Act)
    requires CanAct(c.net, a) && !a.Resume? && Inv(Tint(c)) && Ledgers(c.net)
    ensures Steps(c, Acted(c, a), Sent(c.net.me, Do(c.net.me, a).out))
  {
    assert Shape(c.net.me);
    ActShell(c, a);
    ActKeys(c, a);
    ActTurns(c, a);
    assert c.net.me.state.CONNECTED? ==> Ledger(c.net.me);
    ActInward(c, a);
  }

  lemma ActKeys(c: Chronicle, a: Act)
    requires CanAct(c.net, a) && Inv(Tint(c))
    ensures Keys(c, Acted(c, a), Sent(c.net.me, Do(c.net.me, a).out))
  {
    assert Shape(c.net.me);
    if a.Hear? { HeardFacts(Tint(c)); }
    hide RecutSafe, Inv;
    Keyed(c.net.me, a);
    hide Do, Can, Shape;
  }

  lemma ActTurns(c: Chronicle, a: Act)
    requires CanAct(c.net, a) && Shape(c.net.me)
    ensures Turns(c, Acted(c, a))
  {
    var s := c.net.me;
    hide RecutSafe, Turns, Shape, Can, Acted;
    if !Do(s, a).st.state.CONNECTED? {
      hide Do;
      TurnsOut(c, a);
    } else if s.state.CONNECTED? {
      hide Do;
      TurnsOn(c, a);
    } else {
      hide Do;
      TurnsIn(c, a);
    }
  }

  lemma TurnsOut(c: Chronicle, a: Act)
    requires CanAct(c.net, a) && Shape(c.net.me) && !Do(c.net.me, a).st.state.CONNECTED?
    ensures Turns(c, Acted(c, a))
  {
    hide RecutSafe;
    WaitsStay(c.net.me, a);
    LogsStay(c.net.me, a);
    hide Do, Can, Shape;
  }

  lemma TurnsOn(c: Chronicle, a: Act)
    requires CanAct(c.net, a) && Shape(c.net.me) && c.net.me.state.CONNECTED? && Do(c.net.me, a).st.state.CONNECTED?
    ensures Turns(c, Acted(c, a))
  {
    hide RecutSafe;
    WaitsStay(c.net.me, a);
    StaysIn(c.net.me, a);
    Stays(c.net.me, a);
    hide Do, Can, Shape;
  }

  lemma TurnsIn(c: Chronicle, a: Act)
    requires CanAct(c.net, a) && Shape(c.net.me) && !c.net.me.state.CONNECTED? && Do(c.net.me, a).st.state.CONNECTED?
    ensures Turns(c, Acted(c, a))
  {
    hide RecutSafe;
    WaitsStay(c.net.me, a);
    Begins(c.net.me, a);
    hide Do, Can, Shape;
  }

  lemma ActInward(c: Chronicle, a: Act)
    requires CanAct(c.net, a) && !a.Resume? && Shape(c.net.me) && (c.net.me.state.CONNECTED? ==> Ledger(c.net.me))
    ensures Inward(c, Acted(c, a))
  {
    var s := c.net.me;
    hide RecutSafe;
    hide React, Shape, Ledger;
    if s.state.CONNECTED? && Do(s, a).st.state.CONNECTED? {
      HandHeld(s);
      Stays(s, a);
      if a.Hear? { HearingMoves(s, a.frame); } else { HandStays(s, a); }
    }
    hide Can;
  }

  lemma HandHeld(s: Station)
    requires Ledger(s)
    ensures s.hand.Some? ==> s.task.Sending? || s.task.Failed? || s.task.Leaving?
  {
  }

  lemma ActShell(c: Chronicle, a: Act)
    requires CanAct(c.net, a) && Shape(c.net.me)
    ensures Shell(c, Acted(c, a), Sent(c.net.me, Do(c.net.me, a).out))
  {
    StaysIn(c.net.me, a);
    hide RecutSafe, Do, Can, Shape;
  }

  // -- every act keeps the chronicle true: records and frames ----------------------------------------

  lemma RecordsKept(c: Chronicle, c': Chronicle, q: Queue)
    requires Records(c) && Steps(c, c', q) && Ledgers(c'.net) && Shape(c'.net.me) && c'.net.me.sid < c'.net.next
    ensures Records(c')
  {
    hide Ledger, Keys, Inward;
  }

  lemma RecordsThere(c: Chronicle, c': Chronicle, q: Queue)
    requires Records(Flip(c)) && Shell(c, c', q)
    ensures Records(Flip(c'))
  {
    hide Ledger;
  }

  lemma SourcesKept(c: Chronicle, c': Chronicle, q: Queue)
    requires Records(c) && Sources(c) && Shell(c, c', q) && Keys(c, c', q)
    ensures Sources(c')
  {
    hide Ledger;
    var s, t := c.net.me, c'.net.me;
    if q != [] {
      assert c'.net.out == c.net.out + [q[0]];
      assert c'.net.out[|c.net.out|] == q[0];
    }
  }

  lemma SourcesThere(c: Chronicle, c': Chronicle, q: Queue)
    requires Sources(Flip(c)) && Shell(c, c', q)
    ensures Sources(Flip(c'))
  {
  }

  lemma UnmetKept(c: Chronicle, c': Chronicle, q: Queue)
    requires Records(c) && Records(Flip(c)) && Sources(Flip(c)) && Unmet(c) && Steps(c, c', q) && Together(Tint(c))
    ensures Unmet(c')
  {
    hide Ledger, Keys;
  }

  lemma UnmetThere(c: Chronicle, c': Chronicle, q: Queue)
    requires Unmet(Flip(c)) && Shell(c, c', q) && Virgin(Swap(Tint(c')))
    ensures Unmet(Flip(c'))
  {
  }

  lemma RolesKept(c: Chronicle, a: Act)
    requires Records(c) && Roles(c) && Sources(Flip(c)) && CanAct(c.net, a) && Shape(c.net.me) && Together(Tint(c))
    requires c.net.me.state.CONNECTED? ==> Paced(c.net.me)
    ensures Roles(Acted(c, a))
  {
    var s := c.net.me;
    hide RecutSafe, Ledger;
    if s.state.CONNECTED? && Do(s, a).st.state.CONNECTED? {
      RoleStays(s, a);
      StaysIn(s, a);
      if a.Hear? && a.frame.FloorGrant? { assert c.net.inc[0].tag == s.sid; }
    } else if Do(s, a).st.state.CONNECTED? {
      Begins(s, a);
    }
    hide Do, Can, Shape, Paced;
  }

  lemma RoleStays(s: Station, a: Act)
    requires Shape(s) && Paced(s) && s.state.CONNECTED? && Can(s, a)
    ensures var d := Do(s, a);
      d.st.state.CONNECTED? && d.out != Some(FloorGrant) && !(a.Hear? && a.frame.FloorGrant?) ==>
        d.st.role == s.role && d.st.caller == s.caller
  {
    hide Registry.Resolve, Registry.Step, CutAt, Remembered;
  }

  lemma RolesThere(c: Chronicle, c': Chronicle, q: Queue)
    requires Roles(Flip(c)) && Shell(c, c', q)
    ensures Roles(Flip(c'))
  {
  }

  // -- the two ends of one session, together or apart ---------------------------------------------------

  /** With both ends in the session, the lanes say all there is to say. */
  lemma ApartOfPair(c: Chronicle)
    requires Full(Tint(c)) && Records(Flip(c)) && c.net.me.state.CONNECTED? && c.net.you.state.CONNECTED?
    ensures c.net.me.sid == c.net.you.sid && c.net.me.sid in c.yours && Apart(c, c.net.me, c.net.me.sid)
  {
    var n, s := Tint(c), c.net.me.sid;
    assert Linked(n) && Together(n);
    hide Full, Ledger, Pair, Orphaned;
    OrphanOfPair(n, s);
    OrphanWeaker(n.exact, n.exact, n.exact, n.exact && s !in c.parted, c.net.you, c.net.me, c.net.inc, s);
  }

  /** The same of a listener that may be about to answer the other end's call again. */
  lemma ApartOfNewborn(c: Chronicle, i: nat)
    requires Full(Tint(c)) && Records(Flip(c)) && c.net.me.task.Answering? && c.net.you.state.CONNECTED?
    requires i < |c.net.inc| && c.net.inc[i].frame.Connect?
    ensures var s := c.net.inc[i].frame.sid;
      s == c.net.you.sid && s in c.yours && c.yours[s] == c.net.you && Apart(c, Newborn(c.net.me), s)
  {
    var n, s := Tint(c), c.net.you.sid;
    var y := Newborn(c.net.me);
    assert CallDue(n) && Shape(c.net.me);
    assert Called(c.net.inc);
    assert Partner(Swap(n)) == Some(y);
    assert Linked(Swap(n));
    hide Full, Ledger, Pair, Orphaned;
    OrphanOfPair(Swap(n).(you := y), s);
    OrphanWeaker(n.exact, n.exact, n.exact, n.exact && s !in c.parted, c.net.you, y, c.net.inc, s);
  }

  // -- every act keeps the chronicle true: the two ends ---------------------------------------------

  lemma AloneKept(c: Chronicle, c': Chronicle, q: Queue)
    requires Full(Tint(c)) && Full(Tint(c')) && Records(Flip(c)) && Unmet(c) && Alone(c) && Steps(c, c', q)
    ensures Alone(c')
  {
    var s, t := c.net.me, c'.net.me;
    RecordsThere(c, c', q);
    hide Records, Keys, Ledger, Full;
    if t.state.CONNECTED? && t.sid in c'.yours {
      if c'.net.you.state.CONNECTED? {
        ApartOfPair(c');
      } else if s.state.CONNECTED? {
        ApartMoves(c, c', q);
      } else {
        ApartBegins(c, c', q);
      }
    }
    if t.task.Answering? {
      forall i | 0 <= i < |c'.net.inc| && c'.net.inc[i].frame.Connect? && c'.net.inc[i].frame.sid in c'.yours
        ensures Apart(c', Newborn(t), c'.net.inc[i].frame.sid)
      {
        if c'.net.you.state.CONNECTED? {
          ApartOfNewborn(c', i);
        } else {
          ApartListens(c, c', q, i);
        }
      }
    }
  }

  lemma ApartMoves(c: Chronicle, c': Chronicle, q: Queue)
    requires Full(Tint(c)) && Steps(c, c', q) && c.net.me.state.CONNECTED? && c'.net.me.state.CONNECTED?
    requires c.net.me.sid in c.yours && Apart(c, c.net.me, c.net.me.sid)
    ensures c'.net.me.sid == c.net.me.sid && Apart(c', c'.net.me, c.net.me.sid)
  {
    var s, t, inc := c.net.me, c'.net.me, c.net.inc;
    var k, x := s.sid, c.yours[s.sid];
    var fair, exact := k !in c'.blurred, k !in c'.blurred && k !in c'.parted;
    assert Linked(Tint(c)) && Together(Tint(c)) && Paced(s);
    hide Full, Keys, Orphaned, Linked;
    OrphanWeaker(k !in c.blurred, k !in c.blurred && k !in c.parted, fair, exact, x, s, inc, k);
    if t.taken == s.taken && t.acked == s.acked {
      if t.hand != s.hand && s.hand.None? { OrphanCounts(fair, exact, x, s, inc, k); }
      OrphanAct(fair, exact, x, s, t, inc, k);
      if c'.net.inc != inc { OrphanTake(fair, exact, x, t, inc, k); }
    } else {
      var f := inc[0].frame;
      assert inc[0] == Flight(f, k);
      if f.Data? { OrphanData(fair, exact, x, s, t, inc, k, f); } else { OrphanAck(fair, exact, x, s, t, inc, k, f); }
    }
  }

  /** A station comes into a session the other end has already left. */
  lemma ApartBegins(c: Chronicle, c': Chronicle, q: Queue)
    requires Full(Tint(c)) && Unmet(c) && Alone(c) && Steps(c, c', q)
    requires !c.net.me.state.CONNECTED? && c'.net.me.state.CONNECTED? && c'.net.me.sid in c'.yours
    ensures Apart(c', c'.net.me, c'.net.me.sid)
  {
    var s, t, inc := c.net.me, c'.net.me, c.net.inc;
    var k := t.sid;
    var x, fair, exact := c.yours[k], k !in c.blurred, k !in c.blurred && k !in c.parted;
    assert Virgin(Tint(c));
    hide Full, Keys;
    if t.caller {
      assert Orphaned(fair, exact, x, t, c'.net.inc, k);
    } else {
      assert Apart(c, Newborn(s), k);
      hide Orphaned;
      OrphanAct(fair, exact, x, Newborn(s), t, inc, k);
      OrphanTake(fair, exact, x, t, inc, k);
    }
  }

  lemma ApartListens(c: Chronicle, c': Chronicle, q: Queue, i: nat)
    requires Alone(c) && Steps(c, c', q) && c'.net.me.task.Answering? && !c'.net.me.state.CONNECTED?
    requires i < |c'.net.inc| && c'.net.inc[i].frame.Connect? && c'.net.inc[i].frame.sid in c'.yours
    ensures Apart(c', Newborn(c'.net.me), c'.net.inc[i].frame.sid)
  {
    var s, t, inc := c.net.me, c'.net.me, c.net.inc;
    var k := c'.net.inc[i].frame.sid;
    var x, fair, exact := c.yours[k], k !in c.blurred, k !in c.blurred && k !in c.parted;
    hide Keys, Inward, Orphaned;
    assert c'.net.inc[i] == inc[if c'.net.inc == inc then i else i + 1];
    assert Apart(c, Newborn(s), k);
    OrphanAct(fair, exact, x, Newborn(s), Newborn(t), inc, k);
    if c'.net.inc != inc { OrphanTake(fair, exact, x, Newborn(t), inc, k); }
  }

  lemma AloneThere(c: Chronicle, c': Chronicle, q: Queue)
    requires Full(Tint(c)) && Full(Tint(c')) && Records(c) && Records(c') && Alone(Flip(c)) && Steps(c, c', q)
    ensures Alone(Flip(c'))
  {
    var you := c.net.you;
    assert Shape(you);
    hide Steps, Ledger, Full, Orphaned, Records;
    assert c'.net.you == you by { hide Alone; assert Steps(c, c', q); StepsShell(c, c', q); }
    if you.state.CONNECTED? && you.sid in c'.mine { AloneThereIn(c, c', q); }
    if you.task.Answering? {
      forall i | 0 <= i < |c'.net.out| && c'.net.out[i].frame.Connect? && c'.net.out[i].frame.sid in c'.mine
        ensures Apart(Flip(c'), Newborn(you), c'.net.out[i].frame.sid)
      {
        AloneThereListening(c, c', q, i);
      }
    }
  }

  lemma StepsShell(c: Chronicle, c': Chronicle, q: Queue)
    requires Steps(c, c', q)
    ensures Shell(c, c', q) && Keys(c, c', q)
  {
  }

  lemma AloneThereIn(c: Chronicle, c': Chronicle, q: Queue)
    requires Full(Tint(c)) && Full(Tint(c')) && Records(c) && Records(c') && Alone(Flip(c)) && Steps(c, c', q)
    requires c.net.you.state.CONNECTED? && c.net.you.sid in c'.mine
    ensures Apart(Flip(c'), c.net.you, c.net.you.sid)
  {
    var t, you := c'.net.me, c.net.you;
    assert Shape(you);
    hide Turns, Inward, Keys, Ledger, Full, Orphaned;
    if t.state.CONNECTED? {
      TintFlips(c');
      ApartOfPair(Flip(c'));
    } else {
      if c.net.me.state.CONNECTED? {
        TintFlips(c);
        ApartOfPair(Flip(c));
      }
      ApartAside(c, c', q, you, you.sid);
    }
  }

  lemma AloneThereListening(c: Chronicle, c': Chronicle, q: Queue, i: nat)
    requires Full(Tint(c)) && Full(Tint(c')) && Records(c) && Records(c') && Alone(Flip(c)) && Steps(c, c', q)
    requires c.net.you.task.Answering?
    requires i < |c'.net.out| && c'.net.out[i].frame.Connect? && c'.net.out[i].frame.sid in c'.mine
    ensures Apart(Flip(c'), Newborn(c.net.you), c'.net.out[i].frame.sid)
  {
    var t, you := c'.net.me, c.net.you;
    hide Turns, Inward, Ledger, Full, Orphaned;
    if t.state.CONNECTED? {
      TintFlips(c');
      ApartOfNewborn(Flip(c'), i);
    } else {
      assert i < |c.net.out| && c'.net.out[i] == c.net.out[i];
      if c.net.me.state.CONNECTED? {
        TintFlips(c);
        ApartOfNewborn(Flip(c), i);
      }
      hide Apart;
      ApartAside(c, c', q, Newborn(you), c'.net.out[i].frame.sid);
    }
  }

  lemma ApartAside(c: Chronicle, c': Chronicle, q: Queue, y: Station, k: nat)
    requires Shell(c, c', q) && Keys(c, c', q) && !c'.net.me.state.CONNECTED? && k in c.mine && Apart(Flip(c), y, k)
    ensures k in c'.mine && Apart(Flip(c'), y, k)
  {
    hide Orphaned;
    OrphanAside(k !in c.blurred, k !in c.blurred && k !in c.parted, c.mine[k], y, c.net.out, k, q);
  }

  lemma TintFlips(c: Chronicle)
    requires Full(Tint(c))
    ensures Tint(Flip(c)) == Swap(Tint(c)) && Full(Tint(Flip(c)))
  {
    FullFlips(Tint(c));
  }

  lemma FullFlips(n: Net)
    requires Full(n)
    ensures Full(Swap(n))
  {
  }

  // -- every act keeps the chronicle true: what was delivered ---------------------------------------

  /** What the counts say of messages and bytes. */
  lemma CountsDeliver(e: bool, x: Station, y: Station)
    requires Counts(e, x, y) && Ledger(x) && Ledger(y)
    ensures Delivered(e, e, x, y)
  {
    if e {
      CutsGiven(x);
      Reassembled(y.taken);
      SentWithin(x);
      Grows(x, y);
    }
  }

  lemma Grows(x: Station, y: Station)
    requires Counts(true, x, y) && WithinGiven(Cuts(x), x.given) && WithinGiven(x.acked, x.given)
    ensures WithinGiven(y.taken, x.given) && Messages(x.acked) <= Messages(y.taken)
  {
    hide Flat, ChunkBytes;
    if |y.taken| == |x.acked| + 1 { OneMore(x.acked, x.hand.value); }
  }

  lemma CutsGiven(x: Station)
    requires Ledger(x)
    ensures WithinGiven(Cuts(x), x.given) && WithinGiven(x.acked, x.given)
  {
    if x.task.Sending? {
      CutsWithin(x);
    } else if x.hand.None? {
      assert Cuts(x) == x.acked;
    }
  }

  lemma DeliversOn(fair: bool, exact: bool, fair': bool, exact': bool, x: Station, x': Station, y: Station)
    requires Delivered(fair, exact, x, y) && Delivered(exact', exact', x', y)
    requires x.given <= x'.given && (fair' ==> fair) && (exact' ==> fair')
    ensures Delivered(fair', exact', x', y)
  {
    if fair' {
      var more := x'.given[|x.given|..];
      assert x'.given == x.given + more;
      FlatPrefix(x.given, more);
    }
  }

  lemma {:induction false} FlatPrefix(a: seq<Bytes>, b: seq<Bytes>)
    ensures Flat(a) <= Flat(a + b)
    decreases |b|
  {
    if b == [] {
      assert a + b == a;
    } else {
      FlatPrefix(a, b[..|b| - 1]);
      FlatMore(a + b[..|b| - 1], b[|b| - 1]);
      assert a + b == a + b[..|b| - 1] + [b[|b| - 1]];
    }
  }

  lemma StoryKept(c: Chronicle, c': Chronicle, q: Queue)
    requires Full(Tint(c')) && Records(c) && Records(c') && Records(Flip(c')) && Alone(c') && Steps(c, c', q)
    requires Story(c) && Story(Flip(c))
    ensures Story(c') && Story(Flip(c'))
  {
    var t := c'.net.me;
    if t.state.CONNECTED? && t.sid in c'.yours {
      hide Full, Delivered, Ledger, Apart;
      StoryOut(c, c', q);
      StoryIn(c');
      hide Inward, Keys;
    } else {
      hide Full, Delivered, Ledger, Apart, Inward, Keys;
    }
  }

  lemma StoryIn(c: Chronicle)
    requires Records(c) && Records(Flip(c)) && Alone(c) && c.net.me.state.CONNECTED? && c.net.me.sid in c.yours
    ensures var k := c.net.me.sid; Delivered(k !in c.blurred, k !in c.blurred && k !in c.parted, c.yours[k], c.net.me)
  {
    var k := c.net.me.sid;
    hide Ledger;
    assert Apart(c, c.net.me, k);
    CountsDeliver(k !in c.blurred, c.yours[k], c.net.me);
  }

  lemma StoryOut(c: Chronicle, c': Chronicle, q: Queue)
    requires Full(Tint(c')) && Records(c) && Records(c') && Records(Flip(c')) && Alone(c') && Steps(c, c', q)
        && Story(c)
    requires c'.net.me.state.CONNECTED? && c'.net.me.sid in c'.yours
    ensures var k := c'.net.me.sid;
      Delivered(k !in c'.blurred, k !in c'.blurred && k !in c'.parted, c'.net.me, c'.yours[k])
  {
    var s, t := c.net.me, c'.net.me;
    var k, y := t.sid, c'.yours[t.sid];
    var fair, exact := k !in c'.blurred, k !in c'.blurred && k !in c'.parted;
    assert Counts(exact, t, y) by { assert Apart(c', t, k); }
    hide Ledger, Inward, Keys, Full, Alone;
    CountsDeliver(exact, t, y);
    if c'.net.you.state.CONNECTED? {
      PairCounts(c');
      CountsDeliver(fair, t, y);
      hide Delivered, Counts;
      DeliversOn(fair, fair, fair, exact, t, t, y);
    } else if s.state.CONNECTED? {
      hide Delivered, Counts;
      DeliversOn(k !in c.blurred, k !in c.blurred && k !in c.parted, fair, exact, s, t, y);
    } else {
      assert y.taken == [];
      HeardNothing(y);
    }
  }

  lemma PairCounts(c: Chronicle)
    requires Full(Tint(c)) && Records(Flip(c)) && c.net.me.state.CONNECTED? && c.net.you.state.CONNECTED?
    ensures c.net.me.sid in c.yours && Counts(c.net.me.sid !in c.blurred, c.net.me, c.yours[c.net.me.sid])
  {
    hide Ledger;
    var n := Tint(c);
    assert Linked(n) && Together(n);
    assert Pair(n, n.me.sid);
  }

  lemma HeardNothing(y: Station)
    requires Ledger(y) && y.taken == []
    ensures y.heard == [] && Partial(y) == []
  {
  }

  // -- every move, every run -----------------------------------------------------------------------

  lemma TrueAct(c: Chronicle, a: Act)
    requires True(c) && CanAct(c.net, a) && !a.Resume?
    ensures True(Acted(c, a))
  {
    var c', q := Acted(c, a), Sent(c.net.me, Do(c.net.me, a).out);
    TintAct(c, a);
    ActLedgers(c, a);
    ActFacts(c, a);
    RolesKept(c, a);
    hide *;
    TrueOf(c, c', q);
  }

  lemma ActFacts(c: Chronicle, a: Act)
    requires True(c) && CanAct(c.net, a) && !a.Resume? && Full(Tint(Acted(c, a)))
    ensures Steps(c, Acted(c, a), Sent(c.net.me, Do(c.net.me, a).out))
    ensures Chapter(c) && Chapter(Flip(c)) && Full(Tint(c)) && Shape(c.net.me) && Together(Tint(c))
    ensures Records(c) && Roles(c) && Sources(Flip(c)) && (c.net.me.state.CONNECTED? ==> Paced(c.net.me))
  {
    assert Inv(Tint(c)) && Linked(Tint(c)) && Shape(c.net.me) && Together(Tint(c));
    assert Ledgers(c.net) && Records(c) && Roles(c) && Sources(Flip(c));
    hide Full, Inv, Ledgers, Records, Sources, Roles, Sent, Acted, Shape, Together, Can;
    ActSteps(c, a);
  }

  lemma TrueOf(c: Chronicle, c': Chronicle, q: Queue)
    requires Chapter(c) && Chapter(Flip(c)) && Full(Tint(c)) && Full(Tint(c')) && Ledgers(c'.net) && Steps(c, c', q)
    requires Roles(c')
    ensures True(c')
  {
    assert Shape(c'.net.me) && Together(Tint(c)) && Virgin(Swap(Tint(c'))) && Issued(Tint(c'));
    hide Full, Ledgers, Records, Sources, Unmet, Alone, Story, Roles, Virgin, Together, Shape, Steps;
    StepsShell(c, c', q);
    hide Shell, Keys;
    RecordsKept(c, c', q);
    RecordsThere(c, c', q);
    SourcesKept(c, c', q);
    SourcesThere(c, c', q);
    UnmetKept(c, c', q);
    UnmetThere(c, c', q);
    RolesThere(c, c', q);
    AloneKept(c, c', q);
    AloneThere(c, c', q);
    StoryKept(c, c', q);
  }

  lemma ActLedgers(c: Chronicle, a: Act)
    requires Full(Tint(c)) && Ledgers(c.net) && CanAct(c.net, a) && !a.Resume?
    ensures Ledgers(Acted(c, a).net)
  {
    assert RecutSafe(Tint(c)) == RecutSafe(c.net);
    hide RecutSafe, Ledger, Inv, Do, Can;
    LedgerMove(Tint(c), Mine(a));
  }

  lemma TrueFlips(c: Chronicle)
    requires True(c)
    ensures True(Flip(c)) && Flip(Flip(c)) == c
  {
    hide Full, Chapter, Ledger;
    TintFlips(c);
  }

  lemma TrueLoss(c: Chronicle, k: nat)
    requires True(c) && k < |c.net.out|
    ensures True(c.(net := c.net.(out := Without(c.net.out, k))))
  {
    var c' := c.(net := c.net.(out := Without(c.net.out, k)));
    LossFull(Tint(c), k);
    assert Tint(c') == Tint(c).(out := Without(c.net.out, k));
    hide Full, Ledger, Tint, Chapter;
    LossMyChapter(c, k);
    LossYourChapter(c, k);
  }

  lemma LossMyChapter(c: Chronicle, k: nat)
    requires Chapter(c) && k < |c.net.out|
    ensures Chapter(c.(net := c.net.(out := Without(c.net.out, k))))
  {
    var c' := c.(net := c.net.(out := Without(c.net.out, k)));
    hide Ledger, Orphaned, Delivered;
    assert Records(c') by { hide Sources, Unmet, Alone, Story, Roles; }
    assert Sources(c') by { hide Records, Unmet, Alone, Story, Roles; }
    assert Unmet(c') && Alone(c') && Story(c') && Roles(c') by { hide Records, Sources; }
  }

  lemma LossYourChapter(c: Chronicle, k: nat)
    requires Chapter(Flip(c)) && k < |c.net.out|
    ensures Chapter(Flip(c.(net := c.net.(out := Without(c.net.out, k)))))
  {
    var c' := c.(net := c.net.(out := Without(c.net.out, k)));
    hide Ledger, Orphaned, Delivered;
    LossAlone(c, k);
    assert Records(Flip(c')) && Sources(Flip(c')) by { hide Unmet, Alone, Story, Roles; }
    assert Unmet(Flip(c')) && Story(Flip(c')) && Roles(Flip(c')) by { hide Records, Sources, Alone; }
  }

  lemma LossAlone(c: Chronicle, k: nat)
    requires Alone(Flip(c)) && k < |c.net.out|
    ensures Alone(Flip(c.(net := c.net.(out := Without(c.net.out, k)))))
  {
    var c' := c.(net := c.net.(out := Without(c.net.out, k)));
    var y := c.net.you;
    hide Orphaned;
    if y.state.CONNECTED? && y.sid in c.mine { LossApart(c, k, y, y.sid); }
    if y.task.Answering? {
      forall i | 0 <= i < |c'.net.out| && c'.net.out[i].frame.Connect? && c'.net.out[i].frame.sid in c.mine
        ensures Apart(Flip(c'), Newborn(y), c'.net.out[i].frame.sid)
      {
        assert c'.net.out[i] == c.net.out[if i < k then i else i + 1];
        LossApart(c, k, Newborn(y), c'.net.out[i].frame.sid);
      }
    }
  }

  lemma LossApart(c: Chronicle, k: nat, y: Station, s: nat)
    requires k < |c.net.out| && s in c.mine && Apart(Flip(c), y, s)
    ensures Apart(Flip(c.(net := c.net.(out := Without(c.net.out, k)))), y, s)
  {
    hide Orphaned;
    OrphanLoss(s !in c.blurred, s !in c.blurred && s !in c.parted, c.mine[s], y, c.net.out, s, k);
  }

  lemma TrueMove(c: Chronicle, m: Move)
    requires True(c) && CanMove(c.net, m) && ObedientMove(c.net, m)
    ensures True(Told(c, m))
  {
    hide True, Acted, Played;
    match m
    case Mine(a) => TrueAct(c, a);
    case Yours(a) =>
      TrueFlips(c);
      TrueAct(Flip(c), a);
      TrueFlips(Acted(Flip(c), a));
    case LoseOut(k) => TrueLoss(c, k);
    case LoseInc(k) =>
      TrueFlips(c);
      TrueLoss(Flip(c), k);
      TrueFlips(Flip(c).(net := Flip(c).net.(out := Without(c.net.inc, k))));
  }

  lemma TrueStart(n: Net)
    requires Start(n)
    ensures True(Blank(n))
  {
    StartFull(n);
    hide Full;
    assert Tint(Blank(n)) == n;
  }

  lemma {:induction false} TrueRun(c: Chronicle, moves: seq<Move>, last: Chronicle)
    requires True(c) && Tells(c, moves, last)
    ensures True(last)
    decreases |moves|
  {
    if moves != [] {
      hide True, Told, CanMove;
      TrueMove(c, moves[0]);
      TrueRun(Told(c, moves[0]), moves[1..], last);
    }
  }
}
