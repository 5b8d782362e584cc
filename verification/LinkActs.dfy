/**
 Lists of station acts, and what single acts do at the points where the Link object carries them
 out: the bridge between class Link and the runs of LinkNet.
 */
module LinkActs {
  import opened Common
  import opened LinkStation
  import opened LinkNet
  import opened LinkMessages
  import opened LinkRuns

  /** What a wait on the packet queue yields next. */
  datatype Arrival = Heard(frame: Frame) | Silence

  datatype Kind = KConnect | KConnectAck | KDisc | KDiscAck | KData | KDataAck | KFloorReq | KFloorGrant

  function KindOf(f: Frame): Kind {
    match f
    case Connect(_, _, _, _, _) => KConnect
    case ConnectAck(_, _, _, _, _, _) => KConnectAck
    case Disc => KDisc
    case DiscAck => KDiscAck
    case Data(_, _, _, _) => KData
    case DataAck(_, _, _) => KDataAck
    case FloorReq => KFloorReq
    case FloorGrant => KFloorGrant
  }

  const PARTING: set<Kind> := {KDiscAck, KDisc}
  const RECEIVES: set<Kind> := {KData, KDisc, KFloorReq}
  const FLOORS: set<Kind> := {KFloorGrant, KData, KDisc}
  const ACKS: set<Kind> := {KDataAck, KDisc, KFloorReq}

  /** The packet types each blocking call waits for. */
  function Wants(t: Task): set<Kind> {
    match t
    case Calling(_) => {KConnectAck}
    case Answering => {KConnect}
    case Receiving => RECEIVES
    case Asking(_) => FLOORS
    case Sending(_, _, _) => ACKS
    case Leaving => PARTING
    case _ => {}
  }

  lemma Waits(s: Station)
    ensures s.task.Calling? ==> Hearing(s) && Wants(s.task) == {KConnectAck}
    ensures s.task.Answering? ==> Hearing(s) && Wants(s.task) == {KConnect}
    ensures s.task.Receiving? ==> Hearing(s) && Wants(s.task) == RECEIVES
    ensures s.task.Asking? ==> Hearing(s) && Wants(s.task) == FLOORS
    ensures s.task.Sending? && s.hand.Some? ==> Hearing(s) && Wants(s.task) == ACKS
  {
  }

  lemma LeavingWaits(s: Station)
    requires s.task.Leaving?
    ensures Hearing(s) && Wants(s.task) == PARTING
  {
  }

  lemma LeavingHears(f: Frame)
    requires KindOf(f) in PARTING
    ensures f.Disc? || f.DiscAck?
  {
  }

  lemma Kinds(f: Frame)
    ensures f.Connect? <==> KindOf(f) == KConnect
    ensures f.ConnectAck? <==> KindOf(f) == KConnectAck
    ensures f.Disc? <==> KindOf(f) == KDisc
    ensures f.Data? <==> KindOf(f) == KData
    ensures f.DataAck? <==> KindOf(f) == KDataAck
    ensures f.FloorReq? <==> KindOf(f) == KFloorReq
    ensures f.FloorGrant? <==> KindOf(f) == KFloorGrant
  {
  }

  // -- what a list of acts does ---------------------------------------------------

  datatype Log = Log(st: Station, air: seq<Frame>)

  function Emitted(f: Option<Frame>): seq<Frame> {
    if f.Some? then [f.value] else []
  }

  /** The station and everything it keyed after a list of acts, if each was possible in turn. */
  function Perform(s: Station, acts: seq<Act>): Option<Log>
    decreases |acts|
  {
    if acts == [] then Some(Log(s, []))
    else
      var before := Perform(s, acts[..|acts| - 1]);
      var a := acts[|acts| - 1];
      if before.None? || !Can(before.value.st, a) then None
      else
        var d := Do(before.value.st, a);
        Some(Log(d.st, before.value.air + Emitted(d.out)))
  }

  lemma PerformMore(s: Station, acts: seq<Act>, log: Log, a: Act)
    requires Perform(s, acts) == Some(log) && Can(log.st, a)
    ensures Perform(s, acts + [a]) == Some(Log(Do(log.st, a).st, log.air + Emitted(Do(log.st, a).out)))
  {
    assert (acts + [a])[..|acts|] == acts;
  }

  function OfMe(m: Move): seq<Act> {
    if m.Mine? then [m.act] else []
  }

  function OfYou(m: Move): seq<Act> {
    if m.Yours? then [m.act] else []
  }

  /** Each station's own acts in a run of the net. */
  function MyActs(moves: seq<Move>): seq<Act>
    decreases |moves|
  {
    if moves == [] then []
    else
      var m := moves[|moves| - 1];
      MyActs(moves[..|moves| - 1]) + OfMe(m)
  }

  function YourActs(moves: seq<Move>): seq<Act>
    decreases |moves|
  {
    if moves == [] then []
    else
      var m := moves[|moves| - 1];
      YourActs(moves[..|moves| - 1]) + OfYou(m)
  }

  /** In every run of the net each station goes through exactly the performance of its own acts. */
  lemma {:induction false} NetPerforms(n0: Net, moves: seq<Move>, n: Net)
    requires Reaches(n0, moves, n)
    ensures Perform(n0.me, MyActs(moves)).Some? && Perform(n0.me, MyActs(moves)).value.st == n.me
    ensures Perform(n0.you, YourActs(moves)).Some? && Perform(n0.you, YourActs(moves)).value.st == n.you
    decreases |moves|
  {
    if moves != [] {
      var mid := LastStep(n0, moves, n);
      var init, m := moves[..|moves| - 1], moves[|moves| - 1];
      hide Reaches, Perform, Do, Can, Moved, CanMove;
      NetPerforms(n0, init, mid);
      MoveActs(mid, m);
      if m.Mine? { PerformMore(n0.me, MyActs(init), Perform(n0.me, MyActs(init)).value, m.act); }
      if m.Yours? { PerformMore(n0.you, YourActs(init), Perform(n0.you, YourActs(init)).value, m.act); }
      assert m.Mine? || MyActs(moves) == MyActs(init);
      assert m.Yours? || YourActs(moves) == YourActs(init);
    } else {
      assert Perform(n0.me, []).value.st == n0.me;
      assert Perform(n0.you, []).value.st == n0.you;
    }
  }

  /** A move is an act of one station, or none of either. */
  lemma MoveActs(n: Net, m: Move)
    requires CanMove(n, m)
    ensures m.Mine? ==> Can(n.me, m.act) && Moved(n, m).me == Do(n.me, m.act).st
    ensures m.Yours? ==> Can(n.you, m.act) && Moved(n, m).you == Do(n.you, m.act).st
    ensures !m.Mine? ==> Moved(n, m).me == n.me
    ensures !m.Yours? ==> Moved(n, m).you == n.you
  {
    hide Do, Can, RecutSafe;
  }

  /** A run in which neither station resumes after a failed call. */
  lemma ObeysByActs(n0: Net, moves: seq<Move>, n: Net)
    requires Reaches(n0, moves, n) && Resume !in MyActs(moves) && Resume !in YourActs(moves)
    ensures ReachesObediently(n0, moves, n)
  {
    if Mine(Resume) in moves { ActsListed(moves, Mine(Resume)); }
    if Yours(Resume) in moves { ActsListed(moves, Yours(Resume)); }
    hide MyActs, YourActs;
    Obeys(n0, moves, n);
  }

  lemma {:induction false} Obeys(n0: Net, moves: seq<Move>, n: Net)
    requires Reaches(n0, moves, n) && Mine(Resume) !in moves && Yours(Resume) !in moves
    ensures ReachesObediently(n0, moves, n)
    decreases |moves|
  {
    if moves != [] {
      hide Moved, CanMove;
      assert moves[0] in moves;
      Obeys(Moved(n0, moves[0]), moves[1..], n);
    }
  }

  lemma {:induction false} ActsListed(moves: seq<Move>, m: Move)
    requires m in moves
    ensures m.Mine? ==> m.act in MyActs(moves)
    ensures m.Yours? ==> m.act in YourActs(moves)
    decreases |moves|
  {
    var init := moves[..|moves| - 1];
    if m != moves[|moves| - 1] {
      assert m in init;
      ActsListed(init, m);
    }
  }

  lemma {:induction false} LastStep(n0: Net, moves: seq<Move>, n: Net) returns (mid: Net)
    requires Reaches(n0, moves, n) && moves != []
    ensures Reaches(n0, moves[..|moves| - 1], mid)
    ensures CanMove(mid, moves[|moves| - 1]) && Moved(mid, moves[|moves| - 1]) == n
    decreases |moves|
  {
    if |moves| == 1 {
      mid := n0;
    } else {
      mid := LastStep(Moved(n0, moves[0]), moves[1..], n);
      assert moves[1..][..|moves| - 2] == moves[..|moves| - 1][1..];
    }
  }

  /** How many DATA frames were keyed. */
  function DataKeyed(air: seq<Frame>): nat {
    if air == [] then 0
    else DataKeyed(air[..|air| - 1]) + (if air[|air| - 1].Data? then 1 else 0)
  }

  lemma KeyedMore(air: seq<Frame>, f: Frame)
    ensures DataKeyed(air + [f]) == DataKeyed(air) + (if f.Data? then 1 else 0)
  {
    assert (air + [f])[..|air|] == air;
  }

  function Copies(f: Frame, n: nat): seq<Frame> {
    seq(n, i => f)
  }

  lemma NoCopies(f: Frame, air: seq<Frame>)
    ensures air + Copies(f, 0) == air
  {
  }

  lemma CopiesMore(f: Frame, n: nat, air: seq<Frame>)
    ensures air + Copies(f, n) + [f] == air + Copies(f, n + 1)
  {
  }

  // -- what the queue wait does with packets nobody waits for ------------------------

  lemma Unwanted(s: Station, f: Frame)
    requires Hearing(s) && KindOf(f) !in Wants(s.task) && (s.task.Calling? ==> s.state.CONNECTING?)
    ensures Can(s, Hear(f))
    ensures Do(s, Hear(f)) == Deed(s, if IsDuplicateConnect(s, f) then s.ackBody else None)
  {
  }

  /** Where a wait on the queue ends: at the first silence or wanted packet, or with the script. */
  function EndsAt(inbox: seq<Arrival>, want: set<Kind>): (n: nat)
    ensures n <= |inbox| && forall k :: 0 <= k < n ==> inbox[k].Heard? && KindOf(inbox[k].frame) !in want
    ensures n < |inbox| ==> inbox[n].Silence? || KindOf(inbox[n].frame) in want
  {
    if inbox == [] || inbox[0].Silence? || KindOf(inbox[0].frame) in want then 0 else 1 + EndsAt(inbox[1..], want)
  }

  /** What is left of the script once the packets already queued have been thrown away. */
  function Drained(inbox: seq<Arrival>): seq<Arrival> {
    Rest(inbox, {})
  }

  /** The packet a wait for one of `want` yields, if any, and what is left of the script then. */
  function Found(inbox: seq<Arrival>, want: set<Kind>): Option<Frame> {
    var n := EndsAt(inbox, want);
    if n < |inbox| && inbox[n].Heard? then Some(inbox[n].frame) else None
  }

  function Rest(inbox: seq<Arrival>, want: set<Kind>): seq<Arrival> {
    var n := EndsAt(inbox, want);
    if n < |inbox| then inbox[n + 1..] else []
  }

  /** The next packet is the peer's DISC, and the inactivity clock has not run out before it. */
  predicate DiscWaits(inbox: seq<Arrival>, stale: seq<bool>) {
    inbox != [] && inbox[0] == Heard(Disc) && (stale != [] ==> !stale[0])
  }

  /** What goes out while packets nobody waits for pass: the stored answer, once for every retried CONNECT. */
  function Reanswers(s: Station, passed: seq<Arrival>): seq<Frame> {
    if passed == [] then []
    else
      var last := passed[|passed| - 1];
      Reanswers(s, passed[..|passed| - 1])
      + if last.Heard? && IsDuplicateConnect(s, last.frame) then [s.ackBody.value] else []
  }

  /** One more packet that nobody waits for. */
  lemma Passes(s: Station, inbox: seq<Arrival>, n: nat)
    requires n < |inbox| && inbox[n].Heard?
    ensures Reanswers(s, inbox[..n + 1])
         == Reanswers(s, inbox[..n]) + if IsDuplicateConnect(s, inbox[n].frame) then [s.ackBody.value] else []
  {
    assert inbox[..n + 1][..n] == inbox[..n];
  }

  /** The wait is over. */
  lemma EndsHere(inbox: seq<Arrival>, want: set<Kind>, n: nat)
    requires n <= |inbox| && forall k :: 0 <= k < n ==> inbox[k].Heard? && KindOf(inbox[k].frame) !in want
    requires n < |inbox| ==> inbox[n].Silence? || KindOf(inbox[n].frame) in want
    ensures EndsAt(inbox, want) == n
  {
  }

  lemma {:induction false} CallerSilent(s: Station, passed: seq<Arrival>)
    requires s.state.CONNECTING?
    ensures Reanswers(s, passed) == []
  {
    if passed != [] { CallerSilent(s, passed[..|passed| - 1]); }
  }

  // -- the station acts the methods below carry out -----------------------------------

  lemma TeardownActs(s: Station)
    ensures s.task.Resting? && s.state != CONNECTED ==> Can(s, Hang) && Do(s, Hang) == Deed(s.(state := IDLE), None)
    ensures s.state == CONNECTED && (s.task.Resting? || s.task.Receiving? || s.task.Asking? || s.task.Failed?) ==>
      Can(s, Leave) && Do(s, Leave) == Deed(s.(task := Leaving), None)
    ensures s.task.Leaving? ==> Hearing(s) && Can(s, KeyDisc) && Do(s, KeyDisc) == Deed(s, Some(Disc))
    ensures s.task.Leaving? ==> Can(s, Left) && Do(s, Left) == Deed(Gone(s), None)
    ensures s.task.Leaving? ==> Can(s, Hear(Disc)) && Do(s, Hear(Disc)) == Deed(Gone(s), None)
    ensures s.task.Leaving? ==> Can(s, Hear(DiscAck)) && Do(s, Hear(DiscAck)) == Deed(Gone(s), None)
    ensures Gone(s.(task := Leaving)) == Gone(s)
  {
  }

  lemma GoneFields(s: Station)
    ensures SameMail(s, Gone(s))
    ensures var g := Gone(s);
      && g.state == IDLE && g.peer == None && g.sid == 0 && g.ackBody == None && g.task == Resting
      && g.call == s.call && g.reg == s.reg && g.role == s.role && g.peerModes == s.peerModes && g.tx == s.tx
      && g.rx == s.rx && g.txSeq == s.txSeq && g.rxExpect == s.rxExpect && g.partial == s.partial
      && g.pending == s.pending && g.lastGood == s.lastGood && g.heard == s.heard && g.acked == s.acked
         && g.given == s.given
  {
  }

  lemma ReceiveActs(s: Station)
    requires s.task.Resting? && s.state == CONNECTED
    ensures s.pending != [] ==> Can(s, PopPending) && Do(s, PopPending) == Deed(s.(pending := s.pending[1..]), None)
    ensures s.pending == [] ==> Can(s, StartRecv)
    ensures s.pending == [] ==>
      Do(s, StartRecv) == Deed(s.(task := Receiving, partial := if s.partial.None? then Some([]) else s.partial), None)
  {
  }

  /** What a station inside recv_message does with the packets it waits for. */
  lemma ReceivingHears(s: Station, f: Frame)
    requires s.task.Receiving? && s.state == CONNECTED
    ensures Can(s, StopRecv) && Do(s, StopRecv) == Deed(s.(task := Resting), None)
    ensures Can(s, Hear(f))
    ensures f.FloorReq? ==> Do(s, Hear(f)) == Deed(s.(role := IRS), Some(FloorGrant))
    ensures f.Disc? ==> Do(s, Hear(f)) == Deed(Gone(s), Some(DiscAck))
    ensures f.Data? ==>
      var d := HandleData(s, f);
      && d.st.state == s.state && d.st.task == s.task && d.st.pending == s.pending && d.st.given == s.given
      && d.st.heard == s.heard + (if Completed(s, f).Some? then [Completed(s, f).value] else [])
      && Do(s, Hear(f)) == Deed(if Completed(s, f).Some? then d.st.(task := Resting) else d.st, d.out)
  {
  }

  lemma DiscHeard(s: Station)
    requires s.task.Receiving? || s.task.Asking? || (s.task.Sending? && s.hand.Some?)
    ensures Can(s, Hear(Disc)) && Do(s, Hear(Disc)) == Deed(Gone(s), Some(DiscAck))
  {
  }

  lemma DataFields(s: Station, f: Frame)
    requires f.Data?
    ensures var t := HandleData(s, f).st;
      t == s.(rx := t.rx, partial := t.partial, rxExpect := t.rxExpect, taken := t.taken, heard := t.heard)
  {
  }

  /** What a station waiting for the floor does. */
  lemma AskingActs(s: Station, f: Frame)
    requires s.task.Asking? && s.state == CONNECTED
    ensures s.partial.None? || s.partial.value == [] ==> Can(s, Ask) && Do(s, Ask) == Deed(s, Some(FloorReq))
    ensures Can(s, GiveUpFloor) && Do(s, GiveUpFloor) == Deed(s.(task := Failed), None)
    ensures Can(s, Hear(f))
    ensures f.FloorGrant? ==> Do(s, Hear(f)) == Deed(BeginSending(s, s.task.message), None)
    ensures f.Data? ==> Do(s, Hear(f)) == Deed(TookForFloor(s, f), HandleData(s, f).out)
  {
  }

  /** The station once a DATA frame has been taken while it asks for the floor. */
  function TookForFloor(s: Station, f: Frame): (t: Station)
    requires f.Data?
    ensures t.task == s.task && t.state == s.state && t.given == s.given && t.sent == s.sent && t.acked == s.acked
    ensures t.tx == s.tx && t.reg == s.reg && t.role == s.role && t.hand == s.hand
    ensures Completed(s, f).None? ==> t.pending == s.pending && t.heard == s.heard
    ensures Completed(s, f).Some? ==>
      t.pending == s.pending + [Completed(s, f).value] && t.heard == s.heard + [Completed(s, f).value]
  {
    var d := HandleData(s, f).st;
    if Completed(s, f).Some? then d.(pending := s.pending + [Completed(s, f).value]) else d
  }

  lemma TookFields(s: Station, f: Frame)
    requires f.Data?
    ensures var d := HandleData(s, f);
      TookForFloor(s, f) == d.st.(pending := s.pending + if Completed(s, f).Some? then [Completed(s, f).value] else [])
      && d.out.Some? && d.out.value.DataAck?
  {
    assert s.pending + [] == s.pending;
  }

  /** Nothing to do with sending has changed, and the request for the floor still stands. */
  predicate SameRequest(s: Station, t: Station) {
    && t.task == s.task && t.state == s.state && t.role == s.role && t.reg == s.reg && t.tx == s.tx
    && t.acked == s.acked && t.sent == s.sent && t.given == s.given && t.hand == s.hand && t.peerModes == s.peerModes
  }

  /** Messages completed meanwhile are both delivered and waiting to be fetched. */
  predicate HeardMore(s: Station, t: Station) {
    s.heard <= t.heard && t.pending == s.pending + t.heard[|s.heard|..]
  }

  /** And they are just what has been handed up: `r` before, `r'` after. */
  predicate HandsUp(s: Station, r: seq<Bytes>, t: Station, r': seq<Bytes>) {
    HeardMore(s, t) && r' == r + t.heard[|s.heard|..] && t.given == s.given
  }

  lemma HandsUpMeans(s: Station, t: Station, r: seq<Bytes>)
    requires HandsUp(s, [], t, r)
    ensures t.heard == s.heard + r && t.pending == s.pending + r && t.given == s.given
  {
  }

  lemma HandsUpNothing(s: Station, r: seq<Bytes>, t: Station)
    requires t.heard == s.heard && t.pending == s.pending && t.given == s.given
    ensures HandsUp(s, r, t, r)
  {
  }

  /** Nothing given, heard or waiting has changed. */
  predicate SameMail(s: Station, t: Station) {
    t.heard == s.heard && t.pending == s.pending && t.given == s.given
  }

  lemma MailBy(s: Station, t: Station, u: Station)
    requires SameMail(s, t) && u.heard == t.heard && u.pending == t.pending && u.given == t.given
    ensures SameMail(s, u)
  {
  }

  lemma MailOn(s: Station, t: Station, u: Station)
    requires SameMail(s, t) && SameMail(t, u)
    ensures SameMail(s, u)
  {
  }

  lemma MailAfter(s: Station, r: seq<Bytes>, t: Station, r': seq<Bytes>, u: Station)
    requires HandsUp(s, r, t, r') && SameMail(t, u)
    ensures HandsUp(s, r, u, r')
  {
  }

  lemma StartedMail(s: Station, t: Station, data: Bytes, r: seq<Bytes>, u: Station, r': seq<Bytes>)
    requires t.heard == s.heard && t.pending == s.pending && t.given == s.given + [data] && HandsUp(t, r, u, r')
    ensures HandsUp(s.(given := s.given + [data]), r, u, r')
  {
  }

  lemma HandsUpOn(s: Station, r: seq<Bytes>, t: Station, r': seq<Bytes>, u: Station, r'': seq<Bytes>)
    requires HandsUp(s, r, t, r') && HandsUp(t, r', u, r'')
    ensures HandsUp(s, r, u, r'')
  {
  }

  lemma BeginsHeard(s: Station, data: Bytes)
    ensures var t := BeginSending(s, data); t.heard == s.heard && t.pending == s.pending && t.given == s.given
  {
  }

  lemma TookHandsUp(s: Station, r: seq<Bytes>, f: Frame)
    requires f.Data?
    ensures HandsUp(s, r, TookForFloor(s, f), r + if Completed(s, f).Some? then [Completed(s, f).value] else [])
  {
  }

  /** The floor has come, and the first chunk of the message is cut. */
  predicate AskedFor(s: Station, t: Station)
    requires s.task.Asking?
  {
    && t.task == Sending(s.task.message, 0, false) && t.state == s.state && t.role == ISS
    && t.reg == s.reg && t.tx == s.tx && t.acked == s.acked && t.sent == s.sent && t.given == s.given
    && t.hand == Some(CutAt(s.task.message, 0, t.tx.chunkSize)) && t.peerModes == s.peerModes
  }

  lemma SameItself(s: Station)
    ensures SameRequest(s, s) && SameMail(s, s)
  {
  }

  lemma SameAfter(s: Station, t: Station, u: Station)
    requires SameRequest(s, t)
    ensures SameRequest(t, u) ==> SameRequest(s, u)
    ensures s.task.Asking? ==> t.task.Asking? && (AskedFor(t, u) ==> AskedFor(s, u))
    ensures t.state == s.state && t.task == s.task && t.acked == s.acked && t.sent == s.sent && t.reg == s.reg
  {
  }

  lemma RequestStands(s: Station, t: Station, f: Frame)
    requires s.task.Asking? && SameRequest(s, t)
    ensures t.task.Asking? && t.state == s.state && SameRequest(t, t)
    ensures AskedFor(s, BeginSending(t, t.task.message))
    ensures f.Data? ==> SameRequest(s, TookForFloor(t, f))
  {
  }

  /** What a station with a chunk in hand does. */
  lemma SendingActs(s: Station, f: Frame)
    requires s.task.Sending? && s.hand.Some? && s.state == CONNECTED
    ensures |s.hand.value.bytes| <= s.tx.chunkSize ==>
      Can(s, Key) && Do(s, Key) == Deed(s, Some(Data(s.txSeq, s.hand.value.eof, s.hand.value.bytes, s.tx.id)))
    ensures Can(s, Shift(false)) && Do(s, Shift(false)) == Deed(StepMode(s, false), None)
    ensures Can(s, GiveUpSend) && Do(s, GiveUpSend) == Deed(s.(task := Failed), None)
    ensures Can(s, Hear(f))
    ensures f.FloorReq? || (f.DataAck? && !Confirms(s, f)) ==> Do(s, Hear(f)) == Deed(s, None)
    ensures Confirms(s, f) ==> Do(s, Hear(f)) == Deed(TakeAck(s), None)
  {
  }

  /** What a station between two chunks does. */
  lemma BetweenActs(s: Station, up: bool)
    requires s.task.Sending? && s.hand.None?
    ensures Can(s, Shift(up)) && Do(s, Shift(up)) == Deed(StepMode(s, up), None)
    ensures s.task.finished ==>
      Can(s, Done) && Do(s, Done) == Deed(s.(sent := s.sent + [s.task.data], task := Resting), None)
  {
  }

  /** Nothing is in hand, what is in hand has become too big, or it is already cut as it should be. */
  predicate ReadyToCut(s: Station)
    requires s.task.Sending? && s.task.offset <= |s.task.data|
  {
    || s.hand.None? || |s.hand.value.bytes| > s.tx.chunkSize
    || s.hand == Some(CutAt(s.task.data, s.task.offset, s.tx.chunkSize))
  }

  function CutNow(s: Station): Station
    requires s.task.Sending? && s.task.offset <= |s.task.data|
  {
    s.(hand := Some(CutAt(s.task.data, s.task.offset, s.tx.chunkSize)))
  }

  lemma StepTask(s: Station, up: bool)
    ensures StepMode(s, up) == s.(tx := StepMode(s, up).tx)
  {
  }

  /** Cutting the next chunk, or the same one again smaller. */
  lemma CutActs(s: Station)
    requires s.task.Sending? && s.task.offset <= |s.task.data|
    ensures var cut := CutNow(s);
      && (s.hand.None? && !s.task.finished ==> Can(s, Cut) && Do(s, Cut) == Deed(cut, None))
      && (s.hand.Some? && |s.hand.value.bytes| > s.tx.chunkSize ==> Can(s, Recut) && Do(s, Recut) == Deed(cut, None))
  {
  }

  lemma GaveUp(s: Station)
    requires s.task.Sending? && s.hand.Some?
    ensures Can(s, GiveUpSend) && Do(s, GiveUpSend) == Deed(s.(task := Failed), None)
  {
  }

  lemma StartActs(s: Station, data: Bytes)
    requires s.task.Resting? && s.state == CONNECTED
    ensures Can(s, StartSend(data))
    ensures var t := Do(s, StartSend(data)).st;
      && Do(s, StartSend(data)).out == None && t.heard == s.heard && t.pending == s.pending
      && t.given == s.given + [data] && t.acked == s.acked && t.sent == s.sent && t.state == CONNECTED
      && t == s.(given := t.given, role := t.role, task := t.task, hand := t.hand) && t.role == s.role
      && (s.role == ISS ==> t.task == Sending(data, 0, false) && t.hand == Some(CutAt(data, 0, s.tx.chunkSize)))
      && (s.role != ISS ==> t.task == Asking(data))
  {
  }

  lemma FloorCame(s: Station, t: Station)
    requires s.task.Asking? && AskedFor(s, t)
    ensures t.task == Sending(s.task.message, 0, false) && t.state == s.state && t.role == ISS
    ensures t.hand == Some(CutAt(s.task.message, 0, t.tx.chunkSize)) && t.acked == s.acked && t.sent == s.sent
  {
  }

  lemma SameCarried(s: Station, s': Station, t: Station, data: Bytes)
    requires s'.acked == s.acked && s'.sent == s.sent
    ensures Carried(s', t, data) ==> Carried(s, t, data)
    ensures Carried(s, t, data) ==> |s.acked| < |t.acked|
  {
  }

  /** Chunk `c` has been acknowledged; the transmit mode may have moved. */
  predicate Progressed(s: Station, t: Station, c: Chunk) {
    && s.task.Sending? && t.task == Sending(s.task.data, s.task.offset + |c.bytes|, c.eof)
    && t.hand.None? && t.state == s.state && t.role == s.role
    && t.acked == s.acked + [c] && t.sent == s.sent && t.heard == s.heard && t.pending == s.pending
       && t.given == s.given
  }

  lemma TakenAck(s: Station, u: Station, m: Mode, c: Chunk)
    requires s.task.Sending? && u.hand == Some(c) && u == s.(tx := u.tx, hand := u.hand)
    ensures Progressed(s, TakeAck(u).(tx := m), c)
    ensures TakeAck(u).task.Sending? && TakeAck(u).hand.None?
  {
  }

  /** Keyings allowed before `done` chunks are acknowledged and the next is tried at `rung`. */
  function Allowance(retries: nat, rungs: nat, done: nat, rung: nat): int {
    retries * (rungs * done + rungs - 1 - rung)
  }

  /** Every position tried, the one given up on included, cost at most `retries` keyings a rung. */
  predicate KeyedWithin(before: nat, after: nat, retries: nat, rungs: nat, positions: int) {
    after <= before + retries * rungs * positions
  }

  lemma BudgetOf(before: nat, after: nat, retries: nat, rungs: nat, positions: nat)
    requires after <= before + retries * rungs * positions
    ensures KeyedWithin(before, after, retries, rungs, positions)
  {
  }

  lemma NoneKeyed(n: nat, retries: nat, rungs: nat)
    ensures KeyedWithin(n, n, retries, rungs, 1)
  {
    Multiplies(retries, rungs);
  }

  lemma Multiplies(a: nat, b: nat)
    ensures a * b >= 0
  {
  }

  lemma Spent(retries: nat, rungs: nat, done: nat, rung: nat, next: nat)
    requires rung < rungs && next < rungs
    ensures 0 <= Allowance(retries, rungs, done, rung)
    ensures Allowance(retries, rungs, done, rung) + retries <= retries * rungs * (done + 1)
    ensures retries * rungs * (done + 1) <= Allowance(retries, rungs, done + 1, next)
    ensures next < rung ==> Allowance(retries, rungs, done, rung) + retries <= Allowance(retries, rungs, done, next)
  {
    var a := rungs * done;
    Reassociate(retries, rungs, done + 1);
    Distributes(rungs, done);
    Multiplies(rungs, done);
    var now, more, again := a + rungs - 1 - rung, a + rungs + rungs - 1 - next, a + rungs - 1 - next;
    AllowanceIs(retries, rungs, done, rung, now);
    AllowanceIs(retries, rungs, done + 1, next, more);
    AllowanceIs(retries, rungs, done, next, again);
    hide *;
    Steps(retries, now, a + rungs, more, again);
  }

  lemma AllowanceIs(retries: nat, rungs: nat, done: nat, rung: nat, left: int)
    requires left == rungs * done + rungs - 1 - rung
    ensures Allowance(retries, rungs, done, rung) == retries * left
  {
  }

  lemma Steps(k: nat, now: int, all: int, more: int, again: int)
    requires 0 <= now < all <= more
    ensures 0 <= k * now && k * now + k <= k * all && k * all <= k * more
    ensures now < again ==> k * now + k <= k * again
  {
    Monotone(k, 0, now);
    Monotone(k, now + 1, all);
    Monotone(k, all, more);
    Distributes(k, now);
    if now < again { Monotone(k, now + 1, again); }
  }

  lemma Distributes(r: int, d: int)
    ensures r * (d + 1) == r * d + r
  {
  }

  lemma Reassociate(a: int, b: int, c: int)
    ensures a * b * c == a * (b * c)
  {
  }

  lemma Monotone(k: nat, a: int, b: int)
    requires a <= b
    ensures k * a <= k * b
  {
  }

  lemma CutIs(data: Bytes, offset: nat, size: nat, chunk: Bytes)
    requires offset <= |data| && size > 0 && chunk == data[offset..Min(offset + size, |data|)]
    ensures offset + |chunk| <= |data| && |chunk| <= size && chunk == data[offset..offset + |chunk|]
    ensures offset + |chunk| != |data| ==> chunk != []
    ensures CutAt(data, offset, size) == Chunk(chunk, offset + |chunk| == |data|)
  {
  }

  /** Between two stations the whole of `data` was cut, sent and acknowledged. */
  ghost predicate Carried(s: Station, t: Station, data: Bytes) {
    && t.sent == s.sent + [data] && s.acked < t.acked
    && ChunkBytes(t.acked[|s.acked|..]) == data
    && t.acked[|t.acked| - 1].eof
  }

  /** So far `offset` bytes of `data` were. */
  ghost predicate Carrying(s: Station, t: Station, data: Bytes, offset: nat) {
    && t.task == Sending(data, offset, false) && offset <= |data| && t.state == CONNECTED
    && t.sent == s.sent && s.acked <= t.acked && ChunkBytes(t.acked[|s.acked|..]) == data[..offset]
    && ReadyToCut(t) && t.heard == s.heard && t.pending == s.pending && t.given == s.given
  }

  lemma CarriesOn(s: Station, t: Station, u: Station, data: Bytes, offset: nat, c: Chunk)
    requires Carrying(s, t, data, offset)
    requires offset + |c.bytes| <= |data| && c.bytes == data[offset..offset + |c.bytes|]
    requires Progressed(t, u, c) && (c.eof <==> offset + |c.bytes| == |data|)
    ensures u.task == Sending(data, offset + |c.bytes|, c.eof) && u.hand.None? && u.role == t.role
    ensures u.sent == t.sent && u.state == CONNECTED
    ensures SameMail(s, u)
    ensures !c.eof ==> Carrying(s, u, data, offset + |c.bytes|)
    ensures c.eof ==> Carried(s, u.(sent := u.sent + [data], task := Resting), data)
    ensures |u.acked| == |t.acked| + 1
  {
    assert u.acked[|s.acked|..] == t.acked[|s.acked|..] + [c];
    ChunkBytesMore(t.acked[|s.acked|..], c);
    assert data[..offset] + c.bytes == data[..offset + |c.bytes|];
    assert data[..|data|] == data;
  }

  lemma CarryFacts(s: Station, t: Station, data: Bytes, offset: nat)
    requires Carrying(s, t, data, offset)
    ensures t.task == Sending(data, offset, false) && offset <= |data| && t.state == CONNECTED && ReadyToCut(t)
    ensures |s.acked| <= |t.acked| && s.acked <= t.acked && SameMail(s, t)
  {
  }

  /** Sending starts with the floor in hand: nothing carried yet, the first chunk cut. */
  lemma CarryStarts(s: Station, data: Bytes)
    requires s.task == Sending(data, 0, false) && s.state == CONNECTED
    requires s.hand == Some(CutAt(data, 0, s.tx.chunkSize))
    ensures Carrying(s, s, data, 0)
  {
  }

  /** A step down that leaves the chunk in hand too big asks for it to be cut again. */
  lemma CarryRecuts(s: Station, t: Station, u: Station, data: Bytes, offset: nat)
    requires Carrying(s, t, data, offset) && u == t.(tx := u.tx, hand := u.hand)
    requires u.hand.Some? && |u.hand.value.bytes| > u.tx.chunkSize
    ensures Carrying(s, u, data, offset)
  {
  }

  // -- the handshake ------------------------------------------------------------------------

  /** A station that has begun a call. */
  function InCall(s: Station, dst: string, sid: nat): (t: Station)
    ensures t.task == Calling(CallBody(s, dst, sid)) && t.state == CONNECTING && t.sid == sid && t.call == s.call
  {
    s.(state := CONNECTING, sid := sid, calls := s.calls + {sid}, task := Calling(CallBody(s, dst, sid)))
  }

  lemma CallActs(s: Station, dst: string, sid: nat)
    requires s.task.Resting? && sid > 0
    ensures Can(s, Call(dst, sid)) && Do(s, Call(dst, sid)) == Deed(InCall(s, dst, sid), None)
  {
  }

  lemma ResolveKnown(r: Registry, id: nat)
    requires r.Valid()
    ensures r.Resolve(id) in r.modes
  {
  }

  /** The fields of a session as it begins. */
  predicate Begun(s: Station, t: Station, src: string, modes: seq<nat>, txId: nat, rxId: nat, r: Role) {
    && t.call == s.call && t.reg == s.reg && t.lastGood == s.lastGood && t.state == CONNECTED && t.role == r
    && t.peer == Some(src) && t.peerModes == (set m | m in modes)
    && t.tx == s.reg.Resolve(txId) && t.rx == s.reg.Resolve(rxId)
    && t.txSeq == 0 && t.rxExpect == 0 && t.partial == None && t.pending == [] && t.task.Resting?
  }

  lemma BegunCall(s: Station, ack: Frame)
    requires ack.ConnectAck?
    ensures var t := TakeConnectAck(s, ack);
      Begun(s, t, ack.src, ack.modes, ack.accepted, ack.own, ISS) && t.sid == s.sid && t.ackBody == s.ackBody
  {
  }

  lemma BegunAnswer(s: Station, c: Frame)
    requires c.Connect?
    ensures var t, ack := Accept(s, c).st, Answer(s, c);
      Begun(s, t, c.src, c.modes, ack.own, ack.accepted, IRS) && t.sid == c.sid && t.ackBody == Some(ack)
    ensures Accept(s, c).out == Some(Answer(s, c))
  {
  }

  /** A session just begun carries nothing over in the link. */
  predicate Opened(t: Station) {
    t.pending == [] && t.heard == [] && t.given == [] && t.state == CONNECTED && t.task.Resting?
  }

  lemma NewSession(s: Station, f: Frame)
    ensures f.ConnectAck? ==> Opened(TakeConnectAck(s, f))
    ensures f.Connect? ==> Opened(Accept(s, f).st)
  {
  }

  lemma CallingActs(s: Station, f: Frame)
    requires s.task.Calling?
    ensures Can(s, KeyConnect) && Do(s, KeyConnect) == Deed(s, Some(s.task.body))
    ensures Can(s, GiveUpCall) && Do(s, GiveUpCall) == Deed(s.(state := IDLE, sid := 0, task := Resting), Some(Disc))
    ensures Can(s, Hear(f))
    ensures Do(s, Hear(f)) == Deed(if f.ConnectAck? && f.dst == s.call && f.sid == s.sid
        then TakeConnectAck(s, f) else s, None)
  {
  }

  lemma ListenActs(s: Station)
    requires s.task.Resting?
    ensures Can(s, Listen) && Do(s, Listen) == Deed(s.(state := LISTENING, task := Answering), None)
  {
  }

  lemma AnsweringActs(s: Station, f: Frame)
    requires s.task.Answering?
    ensures Can(s, StopListening) && Do(s, StopListening) == Deed(s.(task := Resting), None)
    ensures Can(s, Hear(f))
    ensures f.Connect? ==> Do(s, Hear(f)) == if f.dst != s.call then Deed(s.(task := Resting), None) else Accept(s, f)
  {
  }

  // -- the ladder -------------------------------------------------------------------------

  lemma RungOf(r: Registry, m: Mode)
    requires r.Valid() && m in r.modes
    ensures r.Index(m.id) < |r.modes| && r.modes[r.Index(m.id)] == m && m.chunkSize > 0
  {
    var i :| 0 <= i < |r.modes| && r.modes[i] == m;
  }

  /** The rung next to the one in use, the way asked, if the ladder has one and the peer has its mode. */
  predicate CanStep(s: Station, up: bool) {
    var next := s.reg.Index(s.tx.id) + (if up then 1 else -1);
    0 <= next < |s.reg.modes| && s.reg.modes[next].id in s.peerModes
  }

  /** A step is taken exactly when there is such a rung, and then it is to that rung. */
  lemma StepMoves(s: Station, up: bool)
    requires s.reg.Valid() && s.tx in s.reg.modes
    ensures var t := StepMode(s, up);
      && t == s.(tx := t.tx) && t.tx in s.reg.modes && (t.tx != s.tx <==> CanStep(s, up))
      && (t.tx != s.tx ==>
           s.reg.Index(t.tx.id) == s.reg.Index(s.tx.id) + (if up then 1 else -1) && t.tx.id in s.peerModes)
  {
    RungOf(s.reg, s.tx);
    RungOf(s.reg, StepMode(s, up).tx);
  }

  /** Of the modes an ACK has proved towards the peer, the one remembered is the fastest still offered. */
  lemma KeepsFastest(s: Station)
    requires s.reg.Valid() && s.tx in s.reg.modes && s.peer.Some?
    ensures var p, m := s.peer.value, RememberMode(s);
      && p in m && s.reg.Supports(m[p]) && s.reg.Index(m[p]) >= s.reg.Index(s.tx.id)
      && (p in s.lastGood && s.reg.Supports(s.lastGood[p]) ==> s.reg.Index(m[p]) >= s.reg.Index(s.lastGood[p]))
      && (m[p] == s.tx.id || (p in s.lastGood && m[p] == s.lastGood[p]))
      && m.Keys == s.lastGood.Keys + {p} && forall q :: q in s.lastGood && q != p ==> m[q] == s.lastGood[q]
  {
    RungOf(s.reg, s.tx);
  }
}
