/**
 The link's safety, over every run of two stations from power-up in which failed calls end their
 session. What is said of chunks and messages is said of every session id of the run, of each end as
 it was when last in that session: it stays true when an end has left, or is long in another session.
 */
module LinkTheorems {
  import opened Common
  import opened LinkStation
  import opened LinkNet
  import opened LinkSession
  import opened LinkLanes
  import opened LinkRuns
  import opened LinkMessages
  import opened LinkOrphans
  import opened LinkHistory
  import opened LinkTerms
  import opened LinkParted

  /** Reached from power-up. */
  ghost predicate Reachable(n0: Net, moves: seq<Move>, n: Net) {
    Start(n0) && ReachesObediently(n0, moves, n)
  }

  /** The chronicle of a run from power-up; every run has one. */
  ghost predicate Recounts(n0: Net, moves: seq<Move>, c: Chronicle) {
    Start(n0) && Tells(Blank(n0), moves, c)
  }

  lemma RecountsKnown(n0: Net, moves: seq<Move>, c: Chronicle)
    requires Recounts(n0, moves, c) && SameControl(n0)
    ensures Known(c)
  {
    KnownStart(n0);
    hide Known, Start;
    KnownRun(Blank(n0), moves, c);
  }

  lemma Recounted(n0: Net, moves: seq<Move>, n: Net) returns (c: Chronicle)
    requires Reachable(n0, moves, n)
    ensures Recounts(n0, moves, c) && c.net == n
  {
    c := Chronicled(Blank(n0), moves, n);
  }

  lemma RecountsTrue(n0: Net, moves: seq<Move>, c: Chronicle)
    requires Recounts(n0, moves, c)
    ensures True(c) && Reachable(n0, moves, c.net)
  {
    TrueStart(n0);
    TrueRun(Blank(n0), moves, c);
    TellsOf(Blank(n0), moves, c);
  }

  /** The same move, seen from the other end. */
  function Mirrored(m: Move): Move {
    match m
    case Mine(a) => Yours(a)
    case Yours(a) => Mine(a)
    case LoseOut(k) => LoseInc(k)
    case LoseInc(k) => LoseOut(k)
  }

  function Mirror(moves: seq<Move>): (there: seq<Move>)
    ensures |there| == |moves| && forall i :: 0 <= i < |moves| ==> there[i] == Mirrored(moves[i])
  {
    seq(|moves|, i requires 0 <= i < |moves| => Mirrored(moves[i]))
  }

  /** A run may be told from either end, so what is said of one end as the sender holds of the other. */
  lemma {:induction false} EitherEnd(c: Chronicle, moves: seq<Move>, last: Chronicle)
    requires Tells(c, moves, last)
    ensures Tells(Flip(c), Mirror(moves), Flip(last))
    decreases |moves|
  {
    if moves != [] {
      EitherEnd(Told(c, moves[0]), moves[1..], last);
      assert Mirror(moves)[1..] == Mirror(moves[1..]);
      MirrorTold(c, moves[0]);
    }
  }

  lemma EitherWay(n0: Net, moves: seq<Move>, n: Net)
    requires ReachesObediently(n0, moves, n)
    ensures ReachesObediently(Swap(n0), Mirror(moves), Swap(n))
  {
    var c := Chronicled(Blank(n0), moves, n);
    EitherEnd(Blank(n0), moves, c);
    TellsOf(Flip(Blank(n0)), Mirror(moves), Flip(c));
  }

  lemma MirrorTold(c: Chronicle, m: Move)
    requires CanMove(c.net, m) && ObedientMove(c.net, m)
    ensures CanMove(Flip(c).net, Mirrored(m)) && ObedientMove(Flip(c).net, Mirrored(m))
    ensures Told(Flip(c), Mirrored(m)) == Flip(Told(c, m))
  {
    hide Acted, Played, CanAct;
    assert Flip(Flip(c)) == c;
    if m.Mine? { assert Flip(Flip(Acted(c, m.act))) == Acted(c, m.act); }
    if m.Yours? { assert Flip(Flip(Acted(Flip(c), m.act))) == Acted(Flip(c), m.act); }
  }

  /** The two ends never hold the floor together. */
  lemma FloorExclusion(n0: Net, moves: seq<Move>, n: Net)
    requires Reachable(n0, moves, n)
    requires n.me.state.CONNECTED? && n.you.state.CONNECTED?
    ensures !(n.me.role.ISS? && n.you.role.ISS?)
    ensures n.me.task.Sending? ==> !n.you.task.Sending?
  {
    StartFull(n0);
    RunFull(n0, moves, n);
    assert Linked(n) && Linked(Swap(n));
  }

  /** Connected stations are in one session, and take data and floor frames of that session only. */
  lemma SessionIsolation(n0: Net, moves: seq<Move>, n: Net)
    requires Start(n0) && Reaches(n0, moves, n) && n.me.state.CONNECTED?
    ensures n.you.state.CONNECTED? ==> n.you.sid == n.me.sid && n.you.caller != n.me.caller
    ensures forall i :: 0 <= i < |n.inc| && Plane(n.inc[i].frame) ==> n.inc[i].tag == n.me.sid
  {
    StartFull(n0);
    RunKeeps(n0, moves, n);
  }

  // -- the handshake ------------------------------------------------------------------------

  /**
   Handshake agreement: under one id, whichever copy of the CONNECT_ACK arrived, both ends hold the
   same accepted modes, and until a FLOOR_GRANT is keyed in the session the caller has the floor.
   */
  lemma HandshakeAgreement(n0: Net, moves: seq<Move>, c: Chronicle)
    requires Recounts(n0, moves, c)
    requires c.net.me.state.CONNECTED? && c.net.you.state.CONNECTED? && c.net.me.caller
    ensures var m, y := c.net.me, c.net.you;
      && !y.caller && m.sid == y.sid && m.up == y.up && m.down == y.down
      && (m.sid !in c.granted ==> m.role == ISS && y.role == IRS)
  {
    RecountsTrue(n0, moves, c);
    assert Full(Tint(c)) && Roles(c) && Roles(Flip(c));
    assert Agreed(Tint(c)) && Together(Tint(c));
  }

  /** And both resolve them to modes of the same ids: the caller's way there is the listener's way in. */
  lemma ProfilesMatch(n0: Net, moves: seq<Move>, n: Net)
    requires Reachable(n0, moves, n) && SameControl(n0)
    requires n.me.state.CONNECTED? && n.you.state.CONNECTED? && n.me.caller
    ensures n.me.reg.Resolve(n.me.up).id == n.you.reg.Resolve(n.you.up).id == n.me.up
    ensures n.me.reg.Resolve(n.me.down).id == n.you.reg.Resolve(n.you.down).id == n.me.down
    ensures n.you.reg.Supports(n.me.tx.id) && n.me.reg.Supports(n.you.tx.id)
  {
    var c := Recounted(n0, moves, n);
    HandshakeAgreement(n0, moves, c);
    TermsStart(n0);
    Plainly(n0, moves, n);
    TermsRun(n0, moves, n);
  }

  lemma {:induction false} Plainly(n0: Net, moves: seq<Move>, n: Net)
    requires ReachesObediently(n0, moves, n)
    ensures Reaches(n0, moves, n)
    decreases |moves|
  {
    if moves != [] { Plainly(Moved(n0, moves[0]), moves[1..], n); }
  }

  /**
   The move by which a station comes into a session: counters, buffers and logs empty, the caller ISS
   and the listener IRS, and its profiles those of the modes agreed, each for its direction.
   */
  lemma ConnectsFresh(n0: Net, moves: seq<Move>, n: Net, a: Act)
    requires Start(n0) && Reaches(n0, moves, n) && CanAct(n, a)
    requires !n.me.state.CONNECTED? && Played(n, a).me.state.CONNECTED?
    ensures var t := Played(n, a).me;
      && t.txSeq == 0 && t.rxExpect == 0 && t.partial.None? && t.pending == [] && t.given == [] && t.heard == []
      && t.role == (if t.caller then ISS else IRS)
      && t.tx == t.reg.Resolve(if t.caller then t.up else t.down)
      && t.rx == t.reg.Resolve(if t.caller then t.down else t.up)
  {
    StartFull(n0);
    RunKeeps(n0, moves, n);
    assert Shape(n.me);
    hide Inv, Registry.Resolve, Answer;
    Begins(n.me, a);
    hide Reaches;
  }

  // -- exactly once ---------------------------------------------------------------------------

  lemma StoryOf(c: Chronicle, k: nat)
    requires True(c) && k in c.mine && k in c.yours
    ensures Delivered(k !in c.blurred, k !in c.blurred && k !in c.parted, c.mine[k], c.yours[k])
  {
    assert Story(c);
    hide Full, Ledgers, Records, Alone, Delivered;
  }

  /**
   Exactly once and in order, for every session of the run and either end as its sender: chunks accepted
   run at most one ahead of those acknowledged; while the session is not blurred those acknowledged are
   the first of those accepted; and while cuts are exact the chunks accepted are the sender's, in its order.
   */
  lemma ExactlyOnce(n0: Net, moves: seq<Move>, c: Chronicle, k: nat)
    requires Recounts(n0, moves, c) && k in c.mine && k in c.yours
    ensures var x, y := c.mine[k], c.yours[k];
      && |x.acked| <= |y.taken| <= |x.acked| + 1
      && (k !in c.blurred && (k !in c.parted || SameControl(n0)) ==> x.acked <= y.taken)
      && (k !in c.blurred && (k !in c.parted || (c.net.you.state.CONNECTED? && c.net.you.sid == k)) ==>
            x.acked <= y.taken <= Cuts(x))
  {
    RecountsTrue(n0, moves, c);
    if k !in c.blurred && SameControl(n0) { SentHeard(n0, moves, c, k); }
    StoryOf(c, k);
    assert Alone(Flip(c)) && Records(Flip(c));
    hide True, Full, Ledger, Recounts;
    if c.net.you.state.CONNECTED? && c.net.you.sid == k { assert Apart(Flip(c), c.net.you, k); }
  }

  lemma SentHeard(n0: Net, moves: seq<Move>, c: Chronicle, k: nat)
    requires Recounts(n0, moves, c) && SameControl(n0) && k in c.mine && k in c.yours && k !in c.blurred
    ensures c.mine[k].acked <= c.yours[k].taken && c.mine[k].sent <= c.yours[k].heard
  {
    RecountsKnown(n0, moves, c);
    hide Known, Recounts;
    SentIsHeard(c, k);
  }

  /** An end whose peer was never in the session has accepted nothing in it and had nothing acknowledged. */
  lemma NothingAlone(n0: Net, moves: seq<Move>, c: Chronicle, k: nat)
    requires Recounts(n0, moves, c) && k in c.mine && k !in c.yours
    ensures c.mine[k].taken == [] && c.mine[k].heard == [] && c.mine[k].acked == []
  {
    RecountsTrue(n0, moves, c);
    assert Unmet(c) && Records(c);
    HeardNothing(c.mine[k]);
  }

  /**
   The messages one end delivered in a session are the first of those the other was given to send in it,
   and the bytes it accepted, delivered or not, are the first bytes given. Every message whose send
   returned is among them, so they are all once every send has returned.
   */
  lemma StreamPrefix(n0: Net, moves: seq<Move>, c: Chronicle, k: nat)
    requires Recounts(n0, moves, c) && k in c.mine && k in c.yours && k !in c.blurred
    ensures var x, y := c.mine[k], c.yours[k];
      && y.heard <= x.given && Flat(y.heard) + Partial(y) <= Flat(x.given)
      && (k !in c.parted || SameControl(n0) ==>
            x.sent <= y.heard && (x.given == x.sent ==> y.heard == x.given && Partial(y) == []))
  {
    RecountsTrue(n0, moves, c);
    if SameControl(n0) { SentHeard(n0, moves, c, k); }
    hide True, Recounts;
    StoryOf(c, k);
    hide Delivered;
    PrefixOf(k !in c.parted, c.mine[k], c.yours[k]);
  }

  lemma PrefixOf(exact: bool, x: Station, y: Station)
    requires Delivered(true, exact, x, y)
    ensures y.heard <= x.given && Flat(y.heard) + Partial(y) <= Flat(x.given) && (exact ==> x.sent <= y.heard)
    ensures x.sent <= y.heard && x.given == x.sent ==> y.heard == x.given && Partial(y) == []
  {
    hide Counts;
  }
}
