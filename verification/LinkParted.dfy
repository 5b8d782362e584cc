/**
 What is acknowledged has been accepted, in every session of every run but the blurred ones: also where
 a chunk was cut again after the other end had accepted it and gone.
 */
module LinkParted {
  import opened Common
  import opened LinkStation
  import opened LinkNet
  import opened LinkSession
  import opened LinkLanes
  import opened LinkRuns
  import opened LinkMessages
  import opened LinkOrphans
  import opened LinkHistory
  import opened LinkTerms
  import opened LinkCalls
  import opened LinkRungs

  /** The other end as it was when last in session `k`, or as it would come into it. */
  function Other(c: Chronicle, k: nat): Station {
    if k in c.yours then c.yours[k] else Newborn(c.net.you)
  }

  ghost predicate InTune(c: Chronicle) {
    var s := c.net.me;
    s.state.CONNECTED? && s.sid !in c.blurred ==>
      Tuned(s, Other(c, s.sid), c.net.you.reg, c.net.out, c.net.inc, s.sid)
  }

  /** A listener that has said and accepted nothing. */
  predicate Silent(s: Station) {
    Untouched(s) && s.role.IRS?
  }

  ghost predicate NoData(q: Queue, k: nat) {
    forall i :: 0 <= i < |q| && q[i].frame.Data? ==> q[i].tag != k
  }

  /** A station called into a session it has been in, or whose caller still waits, was silent in it. */
  ghost predicate Unheard(c: Chronicle) {
    && (forall i :: 0 <= i < |c.net.inc| && c.net.inc[i].frame.Connect? && c.net.inc[i].frame.sid in c.mine ==>
          Silent(c.mine[c.net.inc[i].frame.sid]) && NoData(c.net.out, c.net.inc[i].frame.sid))
    && (c.net.you.state.CONNECTING? && c.net.you.sid in c.mine ==> Silent(c.mine[c.net.you.sid]))
  }

  ghost predicate Kept(c: Chronicle) {
    forall k :: k in c.mine && k in c.yours && k !in c.blurred ==> c.mine[k].acked <= c.yours[k].taken
  }

  ghost predicate Accord(c: Chronicle) {
    InTune(c) && Unheard(c) && Kept(c)
  }

  ghost predicate Known(c: Chronicle) {
    True(c) && Terms(c.net) && Ordered(c.net) && Accord(c) && Accord(Flip(c))
  }

  // -- a station in its session, and the last its peer was in it -----------------------------------------

  /** What a connected station has acknowledged against what the other end has accepted. */
  ghost predicate Between(c: Chronicle) {
    var s, k := c.net.me, c.net.me.sid;
    && Counts(false, s, Other(c, k)) && AcksQueued(s, Other(c, k), c.net.inc, k)
    && Paced(s) && Tagged(c.net.inc, k) && Knows(s, c.net.you.reg)
  }

  lemma TrueParts(c: Chronicle)
    requires True(c)
    ensures Full(Tint(c)) && Records(c) && Sources(c) && Unmet(c) && Alone(c)
    ensures Records(Flip(c)) && Sources(Flip(c)) && Unmet(Flip(c)) && Alone(Flip(c)) && Ledgers(c.net)
  {
    hide Full, Ledger, Records, Sources, Unmet, Alone, Story, Roles;
  }

  lemma SettledIn(n: Net)
    requires Full(n) && n.me.state.CONNECTED?
    ensures Shape(n.me) && Paced(n.me) && Tagged(n.inc, n.me.sid)
    ensures n.you.state.CONNECTED? ==> n.you.sid == n.me.sid && Pair(n, n.me.sid)
  {
    assert Linked(n) && Together(n) && Shape(n.me);
    hide Full, Shape, Pair;
  }

  lemma BetweenEnds(c: Chronicle)
    requires True(c) && Terms(c.net) && c.net.me.state.CONNECTED?
    ensures Between(c)
  {
    hide *;
    TrueParts(c);
    TermsKnow(c.net);
    Tinted(c);
    SettledIn(Tint(c));
    if c.net.me.sid in c.yours { AlongMet(c); } else { AlongUnmet(c); }
    BetweenOf(c);
  }

  lemma Tinted(c: Chronicle)
    ensures Tint(c).me == c.net.me && Tint(c).inc == c.net.inc
  {
  }

  lemma BetweenOf(c: Chronicle)
    requires Counts(false, c.net.me, Other(c, c.net.me.sid)) && Paced(c.net.me) && Tagged(c.net.inc, c.net.me.sid)
    requires AcksQueued(c.net.me, Other(c, c.net.me.sid), c.net.inc, c.net.me.sid) && Knows(c.net.me, c.net.you.reg)
    ensures Between(c)
  {
    hide Counts, AcksQueued, Paced, Tagged, Knows;
  }

  lemma AlongMet(c: Chronicle)
    requires Alone(c) && c.net.me.state.CONNECTED? && c.net.me.sid in c.yours
    ensures Counts(false, c.net.me, Other(c, c.net.me.sid))
    ensures AcksQueued(c.net.me, Other(c, c.net.me.sid), c.net.inc, c.net.me.sid)
  {
    assert Apart(c, c.net.me, c.net.me.sid);
    hide Alone, AcksQueued, DataQueued;
  }

  lemma AlongUnmet(c: Chronicle)
    requires Unmet(c) && Sources(Flip(c)) && Tagged(c.net.inc, c.net.me.sid)
    requires c.net.me.state.CONNECTED? && c.net.me.sid !in c.yours
    ensures Counts(false, c.net.me, Other(c, c.net.me.sid))
    ensures AcksQueued(c.net.me, Other(c, c.net.me.sid), c.net.inc, c.net.me.sid)
  {
  }

  /** With both ends in the session, and it not blurred, the lanes are exact. */
  lemma LanesOf(c: Chronicle)
    requires True(c) && c.net.me.state.CONNECTED? && c.net.you.state.CONNECTED?
    ensures var k := c.net.you.sid;
      && k == c.net.me.sid && k in c.mine && c.mine[k] == c.net.me
      && (k !in c.blurred ==>
            && Counts(true, c.net.you, c.net.me) && DataQueued(true, c.net.you, c.net.me, c.net.inc, k)
            && AcksQueued(c.net.you, c.net.me, c.net.out, k))
  {
    TrueParts(c);
    hide True;
    SettledIn(Tint(c));
    hide Full, Ledger, Sources, Unmet, Alone;
  }

  // -- an act of the sender -----------------------------------------------------------------------------

  /** A re-cut that leaves the session unblurred leaves no copy of the old cut on its way. */
  ghost predicate Cleared(c: Chronicle, c': Chronicle) {
    var s, t := c.net.me, c'.net.me;
    s.hand.Some? && t.hand != s.hand && t.acked == s.acked && t.taken == s.taken && s.sid !in c'.blurred ==>
      forall i :: 0 <= i < |c.net.out| ==> !IsData(c.net.out[i], s.sid, |s.acked|)
  }

  /** What an act of a station that stays in its session does, all told. */
  ghost predicate Goes(c: Chronicle, c': Chronicle, a: Act, keyed: Option<Frame>) {
    && Steps(c, c', Sent(c.net.me, keyed)) && Voiced(c.net.me, c'.net.me, Heard(a), keyed) && Cleared(c, c')
    && (a.Hear? ==> c.net.inc != [] && c.net.inc[0].frame == a.frame && c'.net.inc == c.net.inc[1..])
  }

  lemma InTuneOn(c: Chronicle, c': Chronicle, a: Act, keyed: Option<Frame>)
    requires Between(c) && InTune(c) && Goes(c, c', a, keyed)
    requires c.net.me.state.CONNECTED? && c'.net.me.state.CONNECTED? && c.net.me.sid !in c'.blurred
    ensures InTune(c')
  {
    var s, t := c.net.me, c'.net.me;
    if t.acked != s.acked {
      hide *;
      AckInTune(c, c', a, keyed);
    } else if t.hand == s.hand {
      hide *;
      HandInTune(c, c', a, keyed);
    } else {
      hide *;
      CutInTune(c, c', a, keyed);
    }
  }

  lemma AckInTune(c: Chronicle, c': Chronicle, a: Act, keyed: Option<Frame>)
    requires Between(c) && InTune(c) && Goes(c, c', a, keyed)
    requires c.net.me.state.CONNECTED? && c'.net.me.state.CONNECTED? && c.net.me.sid !in c'.blurred
    requires c'.net.me.acked != c.net.me.acked
    ensures InTune(c')
  {
    var s, t, k, q := c.net.me, c'.net.me, c.net.me.sid, Sent(c.net.me, keyed);
    var y, other, out, inc := Other(c, k), c.net.you.reg, c.net.out, c.net.inc;
    assert Other(c', k) == y && t.sid == k && inc[0].tag == k;
    hide Tuned, AcksQueued, Knows, Confirms;
    TunedAck(s, t, y, other, out, inc, k);
    assert Counts(false, t, y);
    TunedStays(t, t, y, other, out, inc[1..], inc[1..], q, k);
  }

  lemma CutInTune(c: Chronicle, c': Chronicle, a: Act, keyed: Option<Frame>)
    requires Between(c) && InTune(c) && Goes(c, c', a, keyed)
    requires c.net.me.state.CONNECTED? && c'.net.me.state.CONNECTED? && c.net.me.sid !in c'.blurred
    requires c'.net.me.acked == c.net.me.acked && c'.net.me.hand != c.net.me.hand
    ensures InTune(c')
  {
    var s, t, k, q := c.net.me, c'.net.me, c.net.me.sid, Sent(c.net.me, keyed);
    var y, other, out, inc, inc' := Other(c, k), c.net.you.reg, c.net.out, c.net.inc, c'.net.inc;
    assert Other(c', k) == y && t.sid == k;
    assert s.reg.Valid() && s.tx in s.reg.modes;
    hide Tuned, AcksQueued, Knows, Confirms, Registry.Valid;
    TunedCuts(s, t, y, other, out, inc, inc', k);
    TunedStays(t, t, y, other, out, inc', inc', q, k);
  }

  lemma HandInTune(c: Chronicle, c': Chronicle, a: Act, keyed: Option<Frame>)
    requires Between(c) && InTune(c) && Goes(c, c', a, keyed)
    requires c.net.me.state.CONNECTED? && c'.net.me.state.CONNECTED? && c.net.me.sid !in c'.blurred
    requires c'.net.me.acked == c.net.me.acked && c'.net.me.hand == c.net.me.hand
    ensures InTune(c')
  {
    var s, t, k, q := c.net.me, c'.net.me, c.net.me.sid, Sent(c.net.me, keyed);
    var y, other, out, inc, inc' := Other(c, k), c.net.you.reg, c.net.out, c.net.inc, c'.net.inc;
    assert Other(c', k) == y && t.sid == k;
    if q != [] && q[0].frame.Data? {
      Carried(s, other);
      hide Tuned, AcksQueued, Knows, Confirms, Carries, Registry.Resolve, Rung;
      TunedKeys(s, y, other, out, inc, k, q[0]);
      TunedStays(t, t, y, other, out + q, inc, inc', [], k);
      assert out + q + [] == out + q;
    } else {
      hide Tuned, AcksQueued, Knows, Confirms;
      TunedStays(s, t, y, other, out, inc, inc', q, k);
    }
  }

  /** The chunk in hand, keyed in the mode in use. */
  lemma Carried(s: Station, other: Registry)
    requires Knows(s, other) && s.state.CONNECTED? && s.hand.Some? && |s.hand.value.bytes| <= s.tx.chunkSize
    ensures forall seqNo: nat :: Carries(s, other, Data(seqNo, s.hand.value.eof, s.hand.value.bytes, s.tx.id))
  {
    var i :| 0 <= i < |s.reg.modes| && s.reg.modes[i] == s.tx;
    assert s.reg.Index(s.tx.id) == i;
  }

  /** A station coming into a session has nothing of it on its way, and its peer accepted nothing in it. */
  lemma InTuneIn(c: Chronicle, c': Chronicle, q: Queue)
    requires Steps(c, c', q) && Unheard(c) && Sources(c) && Virgin(Tint(c)) && Between(c')
    requires !c.net.me.state.CONNECTED? && c'.net.me.state.CONNECTED? && c'.net.me.sid !in c'.blurred
    ensures InTune(c')
  {
    var t, k := c'.net.me, c'.net.me.sid;
    BeginsQuiet(c, c', q);
    var y := Other(c', k);
    assert t.acked == [] && t.hand.None? && y.taken == [] by { hide AcksQueued, Knows; }
    hide Steps, Unheard, Sources, Between, Carries, Answers;
  }

  lemma BeginsQuiet(c: Chronicle, c': Chronicle, q: Queue)
    requires Steps(c, c', q) && Unheard(c) && Sources(c) && Virgin(Tint(c))
    requires !c.net.me.state.CONNECTED? && c'.net.me.state.CONNECTED?
    ensures NoData(c'.net.out, c'.net.me.sid) && Untouched(c'.net.me)
  {
    var t, k := c'.net.me, c'.net.me.sid;
    hide Inward;
    if !t.caller && k in c.mine { assert NoData(c.net.out, k); }
    assert NoData(c.net.out, k);
    if q != [] { assert c'.net.out == c.net.out + [q[0]]; }
  }

  // -- an act of the receiver -----------------------------------------------------------------------------

  /** The receiver goes on in the session: what it takes and answers keeps its sender in tune. */
  lemma InTuneThereOn(c: Chronicle, c': Chronicle, a: Act, keyed: Option<Frame>)
    requires InTune(Flip(c)) && Goes(c, c', a, keyed)
    requires c.net.me.state.CONNECTED? && c'.net.me.state.CONNECTED? && c.net.you.state.CONNECTED?
    requires var x, k := c.net.you, c.net.you.sid;
      && k !in c'.blurred && k == c.net.me.sid && k in c.mine && c.mine[k] == c.net.me && Paced(c.net.me)
      && Counts(true, x, c.net.me) && DataQueued(true, x, c'.net.me, c'.net.inc, k)
      && AcksQueued(x, c.net.me, c.net.out, k) && Tagged(c.net.inc, k)
    ensures InTune(Flip(c'))
  {
    var x, s, t, k, q := c.net.you, c.net.me, c'.net.me, c.net.you.sid, Sent(c.net.me, keyed);
    var other, inc, out := c.net.me.reg, c.net.inc, c.net.out;
    assert c'.mine[k] == t && t.sid == k;
    assert Tuned(x, s, other, inc, out, k);
    if q != [] && q[0].frame.DataAck? {
      assert inc[0].tag == k && Flight(q[0].frame, k) == q[0];
      Answered(s, inc[0].frame);
      hide Tuned, AcksQueued, DataQueued, Registry.Resolve, Registry.Supports;
      TunedHears(x, s, t, other, inc, out, k, q[0]);
    } else {
      assert t.taken == s.taken;
      hide Tuned, AcksQueued, DataQueued;
      TunedAside(x, s, t, other, inc, c'.net.inc, out, q, k);
    }
  }

  /** A receiver that has the mode of a frame answers in it. */
  lemma Answered(s: Station, f: Frame)
    requires f.Data?
    ensures s.reg.Supports(f.mode) ==> s.reg.Resolve(f.mode).id == f.mode
  {
  }

  /** The receiver comes into the session, leaves it, or stays away. */
  lemma InTuneThereTurn(c: Chronicle, c': Chronicle, q: Queue)
    requires InTune(Flip(c)) && Unheard(c) && Records(c) && Steps(c, c', q) && c'.net.me.reg == c.net.me.reg
    requires c.net.you.state.CONNECTED? && c.net.you.sid !in c'.blurred
    requires !c.net.me.state.CONNECTED? || !c'.net.me.state.CONNECTED?
    requires c'.net.me.state.CONNECTED? ==> c'.net.me.sid == c.net.you.sid
    ensures InTune(Flip(c'))
  {
    var x, k := c.net.you, c.net.you.sid;
    var y, y' := Other(Flip(c), k), Other(Flip(c'), k);
    SameTaken(c, c', q);
    assert Tuned(x, y, c.net.me.reg, c.net.inc, c.net.out, k);
    assert Rest(c.net.inc, c'.net.inc) && (q != [] ==> !q[0].frame.DataAck?);
    hide Tuned, Inward, Turns, Keys, Ledger;
    TunedAside(x, y, y', c.net.me.reg, c.net.inc, c'.net.inc, c.net.out, q, k);
  }

  lemma SameTaken(c: Chronicle, c': Chronicle, q: Queue)
    requires Unheard(c) && Records(c) && Steps(c, c', q) && c.net.you.state.CONNECTED?
    requires !c.net.me.state.CONNECTED? || !c'.net.me.state.CONNECTED?
    requires c'.net.me.state.CONNECTED? ==> c'.net.me.sid == c.net.you.sid
    ensures Other(Flip(c'), c.net.you.sid).taken == Other(Flip(c), c.net.you.sid).taken
  {
    var t, k := c'.net.me, c.net.you.sid;
    hide Inward, Ledger;
    if t.state.CONNECTED? {
      assert Untouched(t) && c'.mine[k] == t;
      if k in c.mine {
        assert !t.caller;
        assert Silent(c.mine[k]);
      }
    }
  }

  // -- who is called again was silent ---------------------------------------------------------------------

  lemma SilentStays(s: Station, a: Act)
    requires Silent(s) && Paced(s) && Shape(s) && s.state.CONNECTED? && Can(s, a) && Do(s, a).st.state.CONNECTED?
    requires !a.Resume? && (a.Hear? ==> !Plane(a.frame))
    ensures Silent(Do(s, a).st) && (Do(s, a).out.Some? ==> !Do(s, a).out.value.Data?)
  {
    if a.Hear? {
      hide Do, Silent, Paced, Shape;
      HearDoes(s, a.frame);
      SilentHears(s, a.frame);
    } else {
      hide React;
    }
  }

  lemma SilentHears(s: Station, f: Frame)
    requires Silent(s) && Paced(s) && Shape(s) && s.state.CONNECTED? && Hearing(s) && React(s, f).st.state.CONNECTED?
    requires !Plane(f)
    ensures Silent(React(s, f).st) && (React(s, f).out.Some? ==> !React(s, f).out.value.Data?)
  {
    hide Registry.Resolve, HandleData;
  }

  /** A station that stays in its session while a CONNECT of it is queued stays silent. */
  ghost predicate Hushed(c: Chronicle, c': Chronicle, q: Queue) {
    c.net.me.state.CONNECTED? && c'.net.me.state.CONNECTED? && Silent(c.net.me) ==>
      || (Silent(c'.net.me) && (q != [] ==> !q[0].frame.Data?))
      || (c.net.inc != [] && c'.net.inc == c.net.inc[1..]
          && Plane(c.net.inc[0].frame) && c.net.inc[0].tag == c.net.me.sid)
  }

  lemma ActHushed(c: Chronicle, a: Act)
    requires CanAct(c.net, a) && !a.Resume? && Shape(c.net.me)
    requires c.net.me.state.CONNECTED? ==> Paced(c.net.me) && Tagged(c.net.inc, c.net.me.sid)
    ensures Hushed(c, Acted(c, a), Sent(c.net.me, Do(c.net.me, a).out))
  {
    var s := c.net.me;
    hide RecutSafe;
    if s.state.CONNECTED? && Do(s, a).st.state.CONNECTED? && Silent(s) && !(a.Hear? && Plane(a.frame)) {
      SilentStays(s, a);
    }
    hide Do, Can, Paced, Shape, Silent;
  }

  lemma UnheardKept(c: Chronicle, c': Chronicle, q: Queue)
    requires Unheard(c) && Steps(c, c', q) && Hushed(c, c', q) && Records(c) && Sources(c)
    requires Virgin(Tint(c)) && Virgin(Swap(Tint(c'))) && Issued(Tint(c)) && Issued(Swap(Tint(c)))
    requires CallsFirst(c.net.inc)
    ensures Unheard(c')
  {
    var t := c'.net.me;
    forall i | 0 <= i < |c'.net.inc| && c'.net.inc[i].frame.Connect? && c'.net.inc[i].frame.sid in c'.mine
      ensures Silent(c'.mine[c'.net.inc[i].frame.sid]) && NoData(c'.net.out, c'.net.inc[i].frame.sid)
    {
      hide *;
      UnheardOne(c, c', q, i);
    }
    assert c'.net.you.state.CONNECTING? && c'.net.you.sid in c'.mine ==> Silent(c'.mine[c'.net.you.sid]) by {
      hide Steps, Records, Sources, Issued, Hushed;
      StepsShell(c, c', q);
      hide Keys;
    }
    hide Steps, Hushed, Records, Sources, Virgin, Issued, Silent, NoData;
  }

  lemma UnheardOne(c: Chronicle, c': Chronicle, q: Queue, i: nat)
    requires Unheard(c) && Steps(c, c', q) && Hushed(c, c', q) && Records(c) && Sources(c)
    requires Virgin(Tint(c)) && Issued(Tint(c)) && Issued(Swap(Tint(c))) && CallsFirst(c.net.inc)
    requires i < |c'.net.inc| && c'.net.inc[i].frame.Connect? && c'.net.inc[i].frame.sid in c'.mine
    ensures Silent(c'.mine[c'.net.inc[i].frame.sid]) && NoData(c'.net.out, c'.net.inc[i].frame.sid)
  {
    var s, t, k := c.net.me, c'.net.me, c'.net.inc[i].frame.sid;
    var j := if c'.net.inc == c.net.inc then i else i + 1;
    assert c.net.inc[j] == c'.net.inc[i];
    hide Records, Sources, Virgin, Issued, CallsFirst, Inward, Ledger, Silent;
    if t.state.CONNECTED? && t.sid == k {
      if s.state.CONNECTED? { UnheardOn(c, c', q, j); } else { UnheardIn(c, c', q, j); }
    } else {
      UnheardOff(c, c', q, j);
    }
  }

  /** A session the station is not in stays as it was left. */
  lemma UnheardOff(c: Chronicle, c': Chronicle, q: Queue, j: nat)
    requires Unheard(c) && Steps(c, c', q) && Hushed(c, c', q)
    requires j < |c.net.inc| && c.net.inc[j].frame.Connect? && c.net.inc[j].frame.sid in c'.mine
    requires !(c'.net.me.state.CONNECTED? && c'.net.me.sid == c.net.inc[j].frame.sid)
    ensures var k := c.net.inc[j].frame.sid; Silent(c'.mine[k]) && NoData(c'.net.out, k)
  {
    var k := c.net.inc[j].frame.sid;
    assert Silent(c.mine[k]) && NoData(c.net.out, k);
    hide Inward, Ledger, Hushed, Silent;
  }

  lemma UnheardOn(c: Chronicle, c': Chronicle, q: Queue, j: nat)
    requires Unheard(c) && Steps(c, c', q) && Hushed(c, c', q) && Records(c) && CallsFirst(c.net.inc)
    requires c.net.me.state.CONNECTED? && c'.net.me.state.CONNECTED?
    requires j < |c.net.inc| && c.net.inc[j].frame.Connect? && c.net.inc[j].frame.sid == c'.net.me.sid
    requires c'.net.inc != c.net.inc ==> j > 0
    ensures c'.net.me.sid in c'.mine && Silent(c'.mine[c'.net.me.sid]) && NoData(c'.net.out, c'.net.me.sid)
  {
    var s, t, k := c.net.me, c'.net.me, c'.net.me.sid;
    assert c.mine[k] == s && c'.mine[k] == t;
    assert Silent(s) && NoData(c.net.out, k);
    hide Inward, Ledger, Silent, Keys;
  }

  lemma UnheardIn(c: Chronicle, c': Chronicle, q: Queue, j: nat)
    requires Unheard(c) && Steps(c, c', q) && Sources(c) && Virgin(Tint(c))
    requires Issued(Tint(c)) && Issued(Swap(Tint(c)))
    requires !c.net.me.state.CONNECTED? && c'.net.me.state.CONNECTED?
    requires j < |c.net.inc| && c.net.inc[j].frame.Connect? && c.net.inc[j].frame.sid == c'.net.me.sid
    ensures c'.net.me.sid in c'.mine && Silent(c'.mine[c'.net.me.sid]) && NoData(c'.net.out, c'.net.me.sid)
  {
    var s, t, k := c.net.me, c'.net.me, c'.net.me.sid;
    BeginsQuiet(c, c', q);
    assert c'.mine[k] == t;
    hide Inward, Keys, Unheard, Sources, Virgin, NoData;
    assert k in c.net.you.calls;
  }

  lemma UnheardThere(c: Chronicle, c': Chronicle, q: Queue)
    requires Unheard(Flip(c)) && Steps(c, c', q) && Virgin(Tint(c)) && Records(Flip(c))
    ensures Unheard(Flip(c'))
  {
    hide Inward, Ledger, Silent;
    if q != [] { assert c'.net.out == c.net.out + [q[0]]; }
  }

  // -- every act ------------------------------------------------------------------------------------------

  lemma KeptHere(c: Chronicle, c': Chronicle, q: Queue)
    requires Kept(c) && InTune(c') && Shell(c, c', q)
    ensures Kept(c')
  {
    var t, k := c'.net.me, c'.net.me.sid;
    if t.state.CONNECTED? && k !in c'.blurred { assert t.acked <= Other(c', k).taken; }
    hide Tuned;
  }

  lemma KeptThere(c: Chronicle, c': Chronicle, q: Queue)
    requires Kept(Flip(c)) && InTune(Flip(c')) && Steps(c, c', q) && Records(c) && Records(Flip(c')) && Alone(c')
    ensures Kept(Flip(c'))
  {
    var s, t, k := c.net.me, c'.net.me, c'.net.me.sid;
    hide Keys, Ledger;
    if t.state.CONNECTED? && k in c'.yours && k !in c'.blurred {
      if c'.net.you.state.CONNECTED? && c'.net.you.sid == k {
        assert c'.yours[k].acked <= Other(Flip(c'), k).taken;
      } else if s.state.CONNECTED? {
        assert c.yours[k].acked <= c.mine[k].taken <= t.taken;
      } else {
        assert Apart(c', t, k);
      }
    }
    hide Tuned, Inward, Turns, Alone;
  }

  lemma KnownParts(c: Chronicle)
    requires Known(c)
    ensures True(c) && Terms(c.net) && Ordered(c.net) && Accord(c) && Accord(Flip(c)) && CallsFirst(c.net.inc)
    ensures InTune(c) && Unheard(c) && Kept(c) && InTune(Flip(c)) && Unheard(Flip(c)) && Kept(Flip(c))
  {
    hide True, Terms, CallsFirst, InTune, Unheard, Kept;
  }

  lemma ActGoes(c: Chronicle, a: Act)
    requires CanAct(c.net, a) && !a.Resume? && Between(c) && Shape(c.net.me) && Ledgers(c.net)
    requires Steps(c, Acted(c, a), Sent(c.net.me, Do(c.net.me, a).out))
    requires c.net.me.state.CONNECTED? && Acted(c, a).net.me.state.CONNECTED?
    ensures Goes(c, Acted(c, a), a, Do(c.net.me, a).out)
  {
    var s, c' := c.net.me, Acted(c, a);
    assert s.reg.Valid() && s.tx in s.reg.modes && c'.net.me == Do(s, a).st;
    assert Ledger(s);
    hide Steps, Voiced, Ledger, Between, RecutSafe;
    HandHeld(s);
    ActVoiced(s, a);
    ActCleared(c, a);
    hide Do, Can, Shape, Cleared, Registry.Valid;
  }

  lemma ActCleared(c: Chronicle, a: Act)
    requires CanAct(c.net, a) && !a.Resume? && Shape(c.net.me) && c.net.me.state.CONNECTED?
    requires c.net.me.hand.Some? ==> c.net.me.task.Sending? || c.net.me.task.Failed? || c.net.me.task.Leaving?
    requires Acted(c, a).net.me.state.CONNECTED?
    ensures Cleared(c, Acted(c, a))
  {
    var s := c.net.me;
    if s.hand.Some? && Do(s, a).st.hand != s.hand && Do(s, a).st.acked == s.acked { OnlyRecut(s, a); }
    hide Do, Can, Shape;
  }

  lemma OnlyRecut(s: Station, a: Act)
    requires Can(s, a) && !a.Resume? && Shape(s) && s.state.CONNECTED? && Do(s, a).st.state.CONNECTED?
    requires s.hand.Some? && (s.task.Sending? || s.task.Failed? || s.task.Leaving?)
    requires Do(s, a).st.hand != s.hand && Do(s, a).st.acked == s.acked
    ensures a.Recut?
  {
    hide CutAt, HandleData, Answer;
  }

  /** What the parts of the argument need of one act. */
  lemma ActScene(c: Chronicle, a: Act)
    requires Known(c) && CanAct(c.net, a) && !a.Resume? && True(Acted(c, a))
    ensures var c', o := Acted(c, a), Do(c.net.me, a).out;
      && Steps(c, c', Sent(c.net.me, o)) && Hushed(c, c', Sent(c.net.me, o)) && c'.net.me.reg == c.net.me.reg
      && (c.net.me.state.CONNECTED? && c'.net.me.state.CONNECTED? ==> Goes(c, c', a, o))
  {
    var s, c' := c.net.me, Acted(c, a);
    assert c'.net == Moved(c.net, Mine(a));
    TrueParts(c');
    ActFacts(c, a);
    KnownParts(c);
    TrueParts(c);
    if s.state.CONNECTED? { SettledIn(Tint(c)); }
    RungsStay(c.net, Mine(a));
    if s.state.CONNECTED? { BetweenEnds(c); }
    hide *;
    ActHushed(c, a);
    if s.state.CONNECTED? && c'.net.me.state.CONNECTED? { ActGoes(c, a); }
  }

  /** One act and what it leads to. */
  ghost predicate Scene(c: Chronicle, c': Chronicle, a: Act, keyed: Option<Frame>) {
    && True(c) && True(c') && Terms(c.net) && Terms(c'.net) && CallsFirst(c.net.inc)
    && Steps(c, c', Sent(c.net.me, keyed)) && Hushed(c, c', Sent(c.net.me, keyed)) && c'.net.me.reg == c.net.me.reg
    && (c.net.me.state.CONNECTED? && c'.net.me.state.CONNECTED? ==> Goes(c, c', a, keyed))
  }

  lemma SceneParts(c: Chronicle, c': Chronicle, a: Act, keyed: Option<Frame>)
    requires Scene(c, c', a, keyed)
    ensures True(c) && True(c') && Terms(c.net) && Terms(c'.net) && c'.net.you == c.net.you
    ensures Steps(c, c', Sent(c.net.me, keyed)) && Hushed(c, c', Sent(c.net.me, keyed))
    ensures Shell(c, c', Sent(c.net.me, keyed)) && c'.net.me.reg == c.net.me.reg
    ensures c.net.me.state.CONNECTED? && c'.net.me.state.CONNECTED? ==>
      Goes(c, c', a, keyed) && c'.net.me.sid == c.net.me.sid
    ensures Records(c) && Records(Flip(c)) && Records(Flip(c')) && Sources(c) && Alone(c')
    ensures Virgin(Tint(c)) && Virgin(Swap(Tint(c'))) && Issued(Tint(c)) && Issued(Swap(Tint(c))) && Together(Tint(c'))
    ensures CallsFirst(c.net.inc) && Full(Tint(c)) && Full(Tint(c'))
  {
    TrueParts(c);
    TrueParts(c');
    StepsShell(c, c', Sent(c.net.me, keyed));
    hide True, Terms, Ledger, Sources, Unmet, Alone, Records, CallsFirst, Shell, Keys, Inward, Goes, Hushed;
    assert Inv(Tint(c)) && Inv(Tint(c')) && Half(Tint(c)) && Half(Swap(Tint(c'))) by { hide Half, Inv; }
    hide Full;
  }

  lemma InTuneHere(c: Chronicle, c': Chronicle, a: Act, keyed: Option<Frame>)
    requires Scene(c, c', a, keyed) && InTune(c) && Unheard(c)
    ensures InTune(c')
  {
    var s, t := c.net.me, c'.net.me;
    SceneParts(c, c', a, keyed);
    if t.state.CONNECTED? && t.sid !in c'.blurred {
      if s.state.CONNECTED? {
        hide *;
        BetweenEnds(c);
        InTuneOn(c, c', a, keyed);
      } else {
        hide *;
        BetweenEnds(c');
        InTuneIn(c, c', Sent(s, keyed));
      }
    } else {
      hide Tuned, Scene, Shell;
    }
  }

  lemma InTuneThere(c: Chronicle, c': Chronicle, a: Act, keyed: Option<Frame>)
    requires Scene(c, c', a, keyed) && InTune(Flip(c)) && Unheard(c)
    ensures InTune(Flip(c'))
  {
    var s, t, x := c.net.me, c'.net.me, c.net.you;
    SceneParts(c, c', a, keyed);
    if x.state.CONNECTED? && x.sid !in c'.blurred {
      BlurGrows(c, c', Sent(s, keyed));
      if s.state.CONNECTED? && t.state.CONNECTED? {
        hide *;
        LanesOf(c);
        LanesOf(c');
        SettledIn(Tint(c));
        InTuneThereOn(c, c', a, keyed);
      } else {
        assert t.state.CONNECTED? ==> t.sid == x.sid by { hide Scene, Shell, Virgin; }
        hide *;
        InTuneThereTurn(c, c', Sent(s, keyed));
      }
    } else {
      hide Tuned, Scene, Shell;
    }
  }

  lemma BlurGrows(c: Chronicle, c': Chronicle, q: Queue)
    requires Shell(c, c', q)
    ensures c.blurred <= c'.blurred && c'.yours == c.yours
  {
  }

  lemma AccordOf(c: Chronicle, c': Chronicle, a: Act, keyed: Option<Frame>)
    requires Scene(c, c', a, keyed) && InTune(c) && Unheard(c) && Kept(c)
    requires InTune(Flip(c)) && Unheard(Flip(c)) && Kept(Flip(c))
    ensures Accord(c') && Accord(Flip(c'))
  {
    var q := Sent(c.net.me, keyed);
    hide *;
    SceneParts(c, c', a, keyed);
    InTuneHere(c, c', a, keyed);
    InTuneThere(c, c', a, keyed);
    UnheardKept(c, c', q);
    UnheardThere(c, c', q);
    KeptHere(c, c', q);
    KeptThere(c, c', q);
    Accords(c');
    Accords(Flip(c'));
  }

  lemma Accords(c: Chronicle)
    requires InTune(c) && Unheard(c) && Kept(c)
    ensures Accord(c)
  {
  }

  lemma KnownAct(c: Chronicle, a: Act)
    requires Known(c) && CanAct(c.net, a) && !a.Resume?
    ensures Known(Acted(c, a))
  {
    hide *;
    KnownParts(c);
    TrueAct(c, a);
    ActMoves(c, a);
    TermsMove(c.net, Mine(a));
    OrderedHere(c, a);
    ActScene(c, a);
    Scenes(c, a);
    AccordOf(c, Acted(c, a), a, Do(c.net.me, a).out);
    KnownOf(Acted(c, a));
  }

  lemma ActMoves(c: Chronicle, a: Act)
    requires CanAct(c.net, a)
    ensures Can(c.net.me, a) && CanMove(c.net, Mine(a)) && Acted(c, a).net == Moved(c.net, Mine(a))
  {
  }

  lemma OrderedHere(c: Chronicle, a: Act)
    requires True(c) && Ordered(c.net) && CanAct(c.net, a)
    ensures Ordered(Acted(c, a).net)
  {
    TrueParts(c);
    hide True, Full, Do, Can, RecutSafe, CallsFirst;
    OrderedAct(Tint(c), a);
  }

  lemma Scenes(c: Chronicle, a: Act)
    requires CanAct(c.net, a) && True(c) && True(Acted(c, a)) && Terms(c.net) && Terms(Acted(c, a).net)
    requires CallsFirst(c.net.inc)
    requires var c', o := Acted(c, a), Do(c.net.me, a).out;
      && Steps(c, c', Sent(c.net.me, o)) && Hushed(c, c', Sent(c.net.me, o)) && c'.net.me.reg == c.net.me.reg
      && (c.net.me.state.CONNECTED? && c'.net.me.state.CONNECTED? ==> Goes(c, c', a, o))
    ensures Scene(c, Acted(c, a), a, Do(c.net.me, a).out)
  {
    hide True, Terms, CallsFirst, Steps, Hushed, Goes, Acted, Do, Sent;
  }

  lemma KnownOf(c: Chronicle)
    requires True(c) && Terms(c.net) && Ordered(c.net) && Accord(c) && Accord(Flip(c))
    ensures Known(c)
  {
    hide True, Terms, Ordered, Accord;
  }

  // -- every move, every run ------------------------------------------------------------------------------

  lemma KnownFlips(c: Chronicle)
    requires Known(c)
    ensures Known(Flip(c)) && Flip(Flip(c)) == c
  {
    TrueFlips(c);
    hide True, CallsFirst, Accord, Knows, Offered;
  }

  lemma KnownLoss(c: Chronicle, k: nat)
    requires Known(c) && k < |c.net.out|
    ensures Known(c.(net := c.net.(out := Without(c.net.out, k))))
  {
    var c' := c.(net := c.net.(out := Without(c.net.out, k)));
    hide *;
    KnownParts(c);
    TrueLoss(c, k);
    LossNet(c.net, k);
    LossInTune(c, k);
    LossUnheard(c, k);
    Accords(c');
    Accords(Flip(c'));
    KnownOf(c');
  }

  lemma LossNet(n: Net, k: nat)
    requires Terms(n) && Ordered(n) && k < |n.out|
    ensures Terms(n.(out := Without(n.out, k))) && Ordered(n.(out := Without(n.out, k)))
  {
    hide Knows, Offered;
  }

  lemma LossInTune(c: Chronicle, k: nat)
    requires k < |c.net.out|
    ensures var c' := c.(net := c.net.(out := Without(c.net.out, k)));
      && (InTune(c) ==> InTune(c')) && (InTune(Flip(c)) ==> InTune(Flip(c')))
      && (Kept(c) ==> Kept(c')) && (Kept(Flip(c)) ==> Kept(Flip(c')))
  {
    var s, y := c.net.me, c.net.you;
    hide Tuned;
    if Tuned(s, Other(c, s.sid), y.reg, c.net.out, c.net.inc, s.sid) {
      TunedLoss(s, Other(c, s.sid), y.reg, c.net.out, c.net.inc, s.sid, k);
    }
    if Tuned(y, Other(Flip(c), y.sid), s.reg, c.net.inc, c.net.out, y.sid) {
      TunedLoss(y, Other(Flip(c), y.sid), s.reg, c.net.inc, c.net.out, y.sid, k);
    }
  }

  lemma LossUnheard(c: Chronicle, k: nat)
    requires k < |c.net.out|
    ensures var c' := c.(net := c.net.(out := Without(c.net.out, k)));
      && (Unheard(c) ==> Unheard(c')) && (Unheard(Flip(c)) ==> Unheard(Flip(c')))
  {
    hide Silent;
  }

  lemma KnownMove(c: Chronicle, m: Move)
    requires Known(c) && CanMove(c.net, m) && ObedientMove(c.net, m)
    ensures Known(Told(c, m))
  {
    hide Known, Acted, Played;
    match m
    case Mine(a) => KnownAct(c, a);
    case Yours(a) =>
      KnownFlips(c);
      KnownAct(Flip(c), a);
      KnownFlips(Acted(Flip(c), a));
    case LoseOut(k) => KnownLoss(c, k);
    case LoseInc(k) =>
      KnownFlips(c);
      KnownLoss(Flip(c), k);
      KnownFlips(Flip(c).(net := Flip(c).net.(out := Without(c.net.inc, k))));
  }

  lemma KnownStart(n: Net)
    requires Start(n) && SameControl(n)
    ensures Known(Blank(n))
  {
    TrueStart(n);
    TermsStart(n);
    OrderedStart(n);
    hide True, Terms, Ordered;
  }

  lemma {:induction false} KnownRun(c: Chronicle, moves: seq<Move>, last: Chronicle)
    requires Known(c) && Tells(c, moves, last)
    ensures Known(last)
    decreases |moves|
  {
    if moves != [] {
      hide Known, Told, CanMove;
      KnownMove(c, moves[0]);
      KnownRun(Told(c, moves[0]), moves[1..], last);
    }
  }

  // -- what it is for -------------------------------------------------------------------------------------

  /** Chunks accepted at least: so is every message acknowledged in full. */
  lemma {:induction false} MessagesGrow(cs: seq<Chunk>, more: seq<Chunk>)
    requires cs <= more
    ensures Messages(cs) <= Messages(more)
    decreases |more|
  {
    if cs != more {
      var init := more[..|more| - 1];
      MessagesGrow(cs, init);
      OneMore(init, more[|more| - 1]);
      assert init + [more[|more| - 1]] == more;
    }
  }

  /** In an unblurred session everything acknowledged was accepted, and every message sent has been heard. */
  lemma SentIsHeard(c: Chronicle, k: nat)
    requires Known(c) && k in c.mine && k in c.yours && k !in c.blurred
    ensures c.mine[k].acked <= c.yours[k].taken && c.mine[k].sent <= c.yours[k].heard
  {
    KnownParts(c);
    TrueParts(c);
    var x, y := c.mine[k], c.yours[k];
    assert x.acked <= y.taken && Ledger(x) && Ledger(y);
    hide Known, True, Ledgers, Records, Accord, Kept;
    SentWithin(x);
    MessagesGrow(x.acked, y.taken);
    assert y.heard == Messages(y.taken);
  }
}
