/**
 Runs that show what each hypothesis of LinkTheorems is for: one that re-cuts a chunk whose
 ACK was lost, one in which failed floor requests do not end the session, and one in which
 listening does not drain the queue.
 */
module LinkCounter {
  import opened Common
  import opened LinkStation
  import opened LinkNet

  const SLOW := Mode(0, 1)
  const FAST := Mode(1, 2)
  const LADDER := Registry([SLOW, FAST], SLOW)

  /** Two stations at power-up; A remembers that FAST worked towards B. */
  function Power(): Net {
    Net(AtPowerUp("A", LADDER, map["B" := 1]), AtPowerUp("B", LADDER, map[]), [], [], 1, true)
  }

  lemma PowerIsStart()
    ensures Start(Power())
  {
    assert LADDER.modes[0] == LADDER.control;
  }

  lemma {:induction false} Then(n0: Net, moves: seq<Move>, n: Net, m: Move)
    requires Reaches(n0, moves, n) && CanMove(n, m)
    ensures Reaches(n0, moves + [m], Moved(n, m))
    decreases |moves|
  {
    if moves == [] {
      assert [m][1..] == [];
      assert moves + [m] == [m];
    } else {
      Then(Moved(n0, moves[0]), moves[1..], n, m);
      assert (moves + [m])[1..] == moves[1..] + [m];
    }
  }

  /** No failed call lets its station carry on. */
  predicate NoResume(moves: seq<Move>) {
    Mine(Resume) !in moves && Yours(Resume) !in moves
  }

  /** One more move of a run. */
  lemma Go(n0: Net, moves: seq<Move>, n: Net, m: Move) returns (moves': seq<Move>, n': Net)
    requires Reaches(n0, moves, n) && CanMove(n, m)
    ensures Reaches(n0, moves', n') && n' == Moved(n, m) && moves' == moves + [m]
  {
    Then(n0, moves, n, m);
    moves', n' := moves + [m], Moved(n, m);
  }

  // -- a session between A (caller, ISS) and B (listener, IRS) -----------------------

  ghost predicate Session(n: Net) {
    && n.me.state.CONNECTED? && n.you.state.CONNECTED? && n.me.task.Resting? && n.you.task.Resting?
    && n.me.role.ISS? && n.you.role.IRS? && n.out == [] && n.inc == []
    && n.me.tx == FAST && n.me.reg == LADDER && n.you.reg == LADDER && n.me.peerModes == {0, 1}
    && n.me.txSeq == 0 && n.you.rxExpect == 0 && n.me.pending == [] && n.you.pending == []
    && n.me.partial.None? && n.you.partial.None? && n.me.hand.None? && n.you.hand.None?
    && n.me.sent == [] && n.you.heard == [] && n.me.sid == 1 && n.me.peer == Some("B")
    && n.you.tx.chunkSize > 0 && n.me.acked == [] && n.you.taken == []
  }

  function ConnectFrame(): Frame {
    Connect("A", "B", [0, 1], 1, 1)
  }

  function AckFrame(): Frame {
    ConnectAck("B", "A", [0, 1], 1, 0, 1)
  }

  lemma Connects() returns (moves: seq<Move>, n: Net)
    ensures Reaches(Power(), moves, n) && Session(n) && NoResume(moves)
  {
    var n0 := Power();
    moves, n := CallAnswered();
    hide Reaches, RecutSafe, Answer;
    LadderFacts();
    assert (set m | m in [0, 1]) == {0, 1};
    moves, n := Go(n0, moves, n, Mine(Hear(AckFrame())));
    assert n.me.peerModes == {0, 1};
  }

  lemma CallAnswered() returns (moves: seq<Move>, n: Net)
    ensures Reaches(Power(), moves, n) && NoResume(moves)
    ensures n.me == Power().me.(state := CONNECTING, sid := 1, calls := {1}, task := Calling(ConnectFrame()))
    ensures n.you == Accept(Power().you.(state := LISTENING, task := Answering), ConnectFrame()).st
    ensures Answer(Power().you.(state := LISTENING, task := Answering), ConnectFrame()) == AckFrame()
    ensures n.out == [] && n.inc == [Flight(AckFrame(), 1)]
  {
    var n0 := Power();
    moves, n := Calls();
    hide Reaches, RecutSafe;
    LadderFacts();
    assert Answer(n.you, ConnectFrame()) == AckFrame();
    hide Answer;
    moves, n := Go(n0, moves, n, Yours(Hear(ConnectFrame())));
  }

  lemma LadderFacts()
    ensures LADDER.Ids() == [0, 1]
    ensures LADDER.Supports(1) && LADDER.Supports(0) && LADDER.Resolve(1) == FAST && LADDER.Resolve(0) == SLOW
    ensures LADDER.Step(FAST, false) == Some(SLOW)
  {
    assert LADDER.IndexFrom(1, 0) == LADDER.IndexFrom(1, 1) == 1;
  }

  lemma Calls() returns (moves: seq<Move>, n: Net)
    ensures Reaches(Power(), moves, n) && NoResume(moves)
    ensures n.me == Power().me.(state := CONNECTING, sid := 1, calls := {1}, task := Calling(ConnectFrame()))
    ensures n.you == Power().you.(state := LISTENING, task := Answering)
    ensures n.out == [Flight(ConnectFrame(), 1)] && n.inc == []
  {
    var n0 := Power();
    LadderFacts();
    moves, n := Go(n0, [], n0, Yours(Listen));
    hide Reaches, RecutSafe;
    moves, n := Go(n0, moves, n, Mine(Call("B", 1)));
    moves, n := Go(n0, moves, n, Mine(KeyConnect));
  }

  // -- the re-cut ------------------------------------------------------------------

  /** A sending [7, 8], B having accepted `heard` and expecting number `due`. */
  ghost predicate Midway(n: Net, task: Task, hand: Option<Chunk>, tx: Mode, seqNo: nat, due: nat, heard: seq<Bytes>) {
    && n.me.state.CONNECTED? && n.you.state.CONNECTED? && n.out == [] && n.inc == []
    && n.me.task == task && n.me.hand == hand && n.me.tx == tx && n.me.txSeq == seqNo && n.me.sent == []
    && n.me.peer.Some? && n.me.reg == LADDER && n.me.peerModes == {0, 1}
    && n.you.rxExpect == due && n.you.partial == Some([]) && n.you.heard == heard
    && n.you.task.Resting? && n.you.pending == [] && n.you.reg == LADDER
  }

  /** The two-byte message arrives whole, and its ACK is lost. */
  lemma LosesAck(n0: Net, moves0: seq<Move>, s: Net) returns (moves: seq<Move>, n: Net)
    requires Reaches(n0, moves0, s) && Session(s) && NoResume(moves0)
    ensures Reaches(n0, moves, n) && NoResume(moves)
    ensures Midway(n, Sending([7, 8], 0, false), Some(Chunk([7, 8], true)), FAST, 0, 1, [[7, 8]])
    ensures n.me.acked == [] && |n.you.taken| == 1
  {
    hide Reaches, RecutSafe;
    moves, n := Primes(n0, moves0, s);
    LadderFacts();
    hide React;
    Takes(n.you, Data(0, true, [7, 8], 1));
    moves, n := KeyHear(n0, moves, n, Data(0, true, [7, 8], 1));
    moves, n := Go(n0, moves, n, LoseInc(0));
  }

  /** A cuts the message, and B comes to receive. */
  lemma Primes(n0: Net, moves0: seq<Move>, s: Net) returns (moves: seq<Move>, n: Net)
    requires Reaches(n0, moves0, s) && Session(s) && NoResume(moves0)
    ensures Reaches(n0, moves, n) && NoResume(moves)
    ensures n == s.(me := n.me, you := s.you.(task := Receiving, partial := Some([])))
    ensures n.me == s.me.(task := Sending([7, 8], 0, false), hand := Some(Chunk([7, 8], true)),
        given := s.me.given + [[7, 8]])
  {
    hide Reaches, RecutSafe, React;
    assert CutAt([7, 8], 0, 2).bytes == [7, 8][0..2] == [7, 8];
    moves, n := Go(n0, moves0, s, Mine(StartSend([7, 8])));
    moves, n := Go(n0, moves, n, Yours(StartRecv));
  }

  /** A keys the chunk in hand and B takes it. */
  lemma KeyHear(n0: Net, moves0: seq<Move>, s: Net, f: Frame) returns (moves: seq<Move>, n: Net)
    requires Reaches(n0, moves0, s) && NoResume(moves0) && s.out == [] && s.inc == []
    requires s.me.state.CONNECTED? && s.me.task.Sending? && s.me.hand.Some?
        && |s.me.hand.value.bytes| <= s.me.tx.chunkSize
    requires f == Data(s.me.txSeq, s.me.hand.value.eof, s.me.hand.value.bytes, s.me.tx.id)
    requires s.you.task.Receiving? && s.you.state.CONNECTED?
    ensures Reaches(n0, moves, n) && NoResume(moves)
    ensures n.me == s.me && n.you == React(s.you, f).st && n.out == []
    ensures React(s.you, f).out.Some? && n.inc == [Flight(React(s.you, f).out.value, s.you.sid)]
    ensures !s.exact ==> !n.exact
  {
    hide Reaches, RecutSafe;
    moves, n := Go(n0, moves0, s, Mine(Key));
    moves, n := Go(n0, moves, n, Yours(Hear(f)));
  }

  /** A takes the ACK at the head of its queue. */
  lemma HearAck(n0: Net, moves0: seq<Move>, s: Net, f: Frame) returns (moves: seq<Move>, n: Net)
    requires Reaches(n0, moves0, s) && NoResume(moves0)
    requires s.me.task.Sending? && s.me.hand.Some? && s.me.state.CONNECTED? && Confirms(s.me, f)
    requires |s.inc| == 1 && s.inc[0].frame == f
    ensures Reaches(n0, moves, n) && NoResume(moves)
    ensures n == s.(me := TakeAck(s.me), inc := [])
    ensures !s.exact ==> !n.exact
  {
    hide Reaches, RecutSafe;
    moves, n := Go(n0, moves0, s, Mine(Hear(f)));
  }

  /** What B makes of a DATA frame. */
  lemma Takes(s: Station, f: Frame)
    requires s.task.Receiving? && f.Data? && s.partial == Some([]) && s.state.CONNECTED? && s.reg == LADDER
    requires f.mode == 0 || f.mode == 1
    ensures var d := React(s, f);
      && d.st.state == s.state && d.st.reg == s.reg && d.st.pending == s.pending && d.st.sid == s.sid
      && d.out == Some(DataAck(f.seqNo, d.st.rxExpect, f.mode))
      && (f.seqNo != s.rxExpect ==>
            d.st.rxExpect == s.rxExpect && d.st.partial == Some([]) && d.st.heard == s.heard && d.st.task.Receiving?)
      && (f.seqNo == s.rxExpect && f.eof ==>
            d.st.rxExpect == (f.seqNo + 1) % SEQ_MODULO && d.st.partial == Some([]) && d.st.task.Resting?
            && d.st.heard == s.heard + [f.chunk])
  {
    LadderFacts();
    assert [] + f.chunk == f.chunk;
  }

  /** A steps down and cuts the same bytes smaller. */
  lemma CutsSmaller(n0: Net, moves0: seq<Move>, s: Net) returns (moves: seq<Move>, n: Net)
    requires Reaches(n0, moves0, s) && NoResume(moves0)
    requires Midway(s, Sending([7, 8], 0, false), Some(Chunk([7, 8], true)), FAST, 0, 1, [[7, 8]])
    requires s.me.acked == [] && |s.you.taken| == 1
    ensures Reaches(n0, moves, n) && NoResume(moves)
    ensures !n.exact
    ensures Midway(n, Sending([7, 8], 0, false), Some(Chunk([7], false)), SLOW, 0, 1, [[7, 8]])
  {
    hide Reaches;
    LadderFacts();
    moves, n := Go(n0, moves0, s, Mine(Shift(false)));
    assert CutAt([7, 8], 0, 1).bytes == [7, 8][0..1] == [7];
    moves, n := Go(n0, moves, n, Mine(Recut));
  }

  /** The first half goes out under the same number: dropped as a duplicate, but acknowledged. */
  lemma HalfAgain(n0: Net, moves0: seq<Move>, s: Net) returns (moves: seq<Move>, n: Net)
    requires Reaches(n0, moves0, s) && NoResume(moves0) && !s.exact
    requires Midway(s, Sending([7, 8], 0, false), Some(Chunk([7], false)), SLOW, 0, 1, [[7, 8]])
    ensures Reaches(n0, moves, n) && NoResume(moves) && !n.exact
    ensures Midway(n, Sending([7, 8], 1, false), None, SLOW, 1, 1, [[7, 8]])
  {
    hide Reaches, RecutSafe, React;
    moves, n := HalfHeard(n0, moves0, s);
    moves, n := Go(n0, moves, n, Yours(StopRecv));
    moves, n := HearAck(n0, moves, n, DataAck(0, 1, 0));
  }

  lemma HalfHeard(n0: Net, moves0: seq<Move>, s: Net) returns (moves: seq<Move>, n: Net)
    requires Reaches(n0, moves0, s) && NoResume(moves0) && !s.exact
    requires Midway(s, Sending([7, 8], 0, false), Some(Chunk([7], false)), SLOW, 0, 1, [[7, 8]])
    ensures Reaches(n0, moves, n) && NoResume(moves) && !n.exact
    ensures n.me == s.me && n.out == [] && |n.inc| == 1 && n.inc[0].frame == DataAck(0, 1, 0)
    ensures n.you.task.Receiving?
    ensures Midway(n.(you := n.you.(task := Resting), inc := []), s.me.task, s.me.hand, SLOW, 0, 1, [[7, 8]])
  {
    hide Reaches, RecutSafe, React;
    moves, n := Go(n0, moves0, s, Yours(StartRecv));
    Takes(n.you, Data(0, false, [7], 0));
    moves, n := KeyHear(n0, moves, n, Data(0, false, [7], 0));
  }

  /** The tail goes out as the next chunk, and is delivered as a message of its own. */
  lemma TailAgain(n0: Net, moves0: seq<Move>, s: Net) returns (moves: seq<Move>, n: Net)
    requires Reaches(n0, moves0, s) && NoResume(moves0) && !s.exact
    requires Midway(s, Sending([7, 8], 1, false), None, SLOW, 1, 1, [[7, 8]])
    ensures Reaches(n0, moves, n) && NoResume(moves) && !n.exact
    ensures Midway(n, Sending([7, 8], 2, true), None, SLOW, 2, 2, [[7, 8], [8]])
  {
    hide Reaches, RecutSafe, React;
    moves, n := CutsTail(n0, moves0, s);
    Takes(n.you, Data(1, true, [8], 0));
    moves, n := KeyHear(n0, moves, n, Data(1, true, [8], 0));
    moves, n := HearAck(n0, moves, n, DataAck(1, 2, 0));
  }

  lemma CutsTail(n0: Net, moves0: seq<Move>, s: Net) returns (moves: seq<Move>, n: Net)
    requires Reaches(n0, moves0, s) && NoResume(moves0)
    requires Midway(s, Sending([7, 8], 1, false), None, SLOW, 1, 1, [[7, 8]])
    ensures Reaches(n0, moves, n) && NoResume(moves)
    ensures n == s.(me := s.me.(hand := Some(Chunk([8], true))), you := s.you.(task := Receiving))
  {
    hide Reaches, RecutSafe, React;
    assert CutAt([7, 8], 1, 1).bytes == [7, 8][1..2] == [8];
    moves, n := Go(n0, moves0, s, Mine(Cut));
    moves, n := Go(n0, moves, n, Yours(StartRecv));
  }

  /**
   Without the re-cut hypothesis: A sends one message, [7, 8], and its send_message returns;
   B has delivered two, [7, 8] and [8].
   */
  lemma RecutRepeats() returns (moves: seq<Move>, n: Net)
    ensures Start(Power()) && Reaches(Power(), moves, n)
    ensures NoResume(moves)
    ensures n.me.state.CONNECTED? && n.you.state.CONNECTED? && n.me.task.Resting?
    ensures n.me.sent == [[7, 8]] && n.you.heard == [[7, 8], [8]] && !n.exact
  {
    PowerIsStart();
    var n0 := Power();
    moves, n := Connects();
    hide Reaches, RecutSafe;
    moves, n := LosesAck(n0, moves, n);
    moves, n := CutsSmaller(n0, moves, n);
    moves, n := HalfAgain(n0, moves, n);
    moves, n := TailAgain(n0, moves, n);
    moves, n := Go(n0, moves, n, Mine(Done));
  }

  // -- failed floor requests that do not end the session ---------------------------

  /** A connected station between calls. */
  predicate Poised(s: Station, role: Role) {
    && s.state.CONNECTED? && s.task.Resting? && s.role == role && s.pending == [] && s.hand.None?
    && (s.partial.None? || s.partial == Some([]))
  }

  ghost predicate AtRest(n: Net, mine: Role, yours: Role, out: seq<Frame>, inc: seq<Frame>) {
    && Poised(n.me, mine) && Poised(n.you, yours)
    && |n.out| == |out| && |n.inc| == |inc|
    && (forall i :: 0 <= i < |out| ==> n.out[i].frame == out[i])
    && (forall i :: 0 <= i < |inc| ==> n.inc[i].frame == inc[i])
  }

  /** B asks for the floor and is given up on: the grant is lost. */
  lemma GrantLost(n0: Net, moves0: seq<Move>, s: Net) returns (moves: seq<Move>, n: Net)
    requires Reaches(n0, moves0, s) && AtRest(s, ISS, IRS, [], [])
    ensures Reaches(n0, moves, n) && AtRest(n, IRS, IRS, [], [])
  {
    hide Reaches, RecutSafe;
    moves, n := YouAsk(n0, moves0, s);
    moves, n := MeGrant(n0, moves, n);
    assert n.out[0].frame == FloorGrant;
    moves, n := Go(n0, moves, n, LoseOut(0));
  }

  lemma YouAsk(n0: Net, moves0: seq<Move>, s: Net) returns (moves: seq<Move>, n: Net)
    requires Reaches(n0, moves0, s) && Poised(s.you, IRS)
    ensures Reaches(n0, moves, n) && Poised(n.you, IRS)
    ensures n == s.(you := n.you, inc := s.inc + [Flight(FloorReq, s.you.sid)])
  {
    hide Reaches, RecutSafe;
    moves, n := YouRequest(n0, moves0, s);
    moves, n := Go(n0, moves, n, Yours(GiveUpFloor));
    moves, n := Go(n0, moves, n, Yours(Resume));
  }

  lemma YouRequest(n0: Net, moves0: seq<Move>, s: Net) returns (moves: seq<Move>, n: Net)
    requires Reaches(n0, moves0, s) && Poised(s.you, IRS)
    ensures Reaches(n0, moves, n) && n.you == s.you.(task := Asking([9]), given := s.you.given + [[9]])
    ensures n == s.(you := n.you, inc := s.inc + [Flight(FloorReq, s.you.sid)])
  {
    hide Reaches, RecutSafe;
    moves, n := YouStart(n0, moves0, s);
    moves, n := Go(n0, moves, n, Yours(Ask));
  }

  lemma YouStart(n0: Net, moves0: seq<Move>, s: Net) returns (moves: seq<Move>, n: Net)
    requires Reaches(n0, moves0, s) && Poised(s.you, IRS)
    ensures Reaches(n0, moves, n) && n == s.(you := s.you.(task := Asking([9]), given := s.you.given + [[9]]))
  {
    hide Reaches, RecutSafe, React;
    moves, n := Go(n0, moves0, s, Yours(StartSend([9])));
  }

  lemma MeAsk(n0: Net, moves0: seq<Move>, s: Net) returns (moves: seq<Move>, n: Net)
    requires Reaches(n0, moves0, s) && Poised(s.me, IRS)
    ensures Reaches(n0, moves, n) && Poised(n.me, IRS)
    ensures n == s.(me := n.me, out := s.out + [Flight(FloorReq, s.me.sid)])
  {
    hide Reaches, RecutSafe;
    moves, n := MeRequest(n0, moves0, s);
    moves, n := Go(n0, moves, n, Mine(GiveUpFloor));
    moves, n := Go(n0, moves, n, Mine(Resume));
  }

  lemma MeRequest(n0: Net, moves0: seq<Move>, s: Net) returns (moves: seq<Move>, n: Net)
    requires Reaches(n0, moves0, s) && Poised(s.me, IRS)
    ensures Reaches(n0, moves, n) && n.me == s.me.(task := Asking([9]), given := s.me.given + [[9]])
    ensures n == s.(me := n.me, out := s.out + [Flight(FloorReq, s.me.sid)])
  {
    hide Reaches, RecutSafe;
    moves, n := MeStart(n0, moves0, s);
    moves, n := Go(n0, moves, n, Mine(Ask));
  }

  lemma MeStart(n0: Net, moves0: seq<Move>, s: Net) returns (moves: seq<Move>, n: Net)
    requires Reaches(n0, moves0, s) && Poised(s.me, IRS)
    ensures Reaches(n0, moves, n) && n == s.(me := s.me.(task := Asking([9]), given := s.me.given + [[9]]))
  {
    hide Reaches, RecutSafe, React;
    moves, n := Go(n0, moves0, s, Mine(StartSend([9])));
  }

  lemma MeGrant(n0: Net, moves0: seq<Move>, s: Net) returns (moves: seq<Move>, n: Net)
    requires Reaches(n0, moves0, s) && Poised(s.me, s.me.role) && s.inc != [] && s.inc[0].frame == FloorReq
    ensures Reaches(n0, moves, n) && Poised(n.me, IRS)
    ensures n == s.(me := n.me, out := s.out + [Flight(FloorGrant, s.me.sid)], inc := s.inc[1..])
  {
    hide Reaches, RecutSafe;
    moves, n := Go(n0, moves0, s, Mine(StartRecv));
    moves, n := Go(n0, moves, n, Mine(Hear(FloorReq)));
    moves, n := Go(n0, moves, n, Mine(StopRecv));
  }

  lemma YouGrant(n0: Net, moves0: seq<Move>, s: Net) returns (moves: seq<Move>, n: Net)
    requires Reaches(n0, moves0, s) && Poised(s.you, s.you.role) && s.out != [] && s.out[0].frame == FloorReq
    ensures Reaches(n0, moves, n) && Poised(n.you, IRS)
    ensures n == s.(you := n.you, inc := s.inc + [Flight(FloorGrant, s.you.sid)], out := s.out[1..])
  {
    hide Reaches, RecutSafe;
    moves, n := YouListen(n0, moves0, s);
    moves, n := Go(n0, moves, n, Yours(Hear(FloorReq)));
    hide React;
    moves, n := Go(n0, moves, n, Yours(StopRecv));
  }

  lemma YouListen(n0: Net, moves0: seq<Move>, s: Net) returns (moves: seq<Move>, n: Net)
    requires Reaches(n0, moves0, s) && Poised(s.you, s.you.role)
    ensures Reaches(n0, moves, n)
    ensures n == s.(you := s.you.(task := Receiving, partial := Some([])))
  {
    hide Reaches, RecutSafe, React;
    moves, n := Go(n0, moves0, s, Yours(StartRecv));
  }

  /** Both ask again, each with the other's grant waiting, and both take it. */
  lemma BothTake(n0: Net, moves0: seq<Move>, s: Net) returns (moves: seq<Move>, n: Net)
    requires Reaches(n0, moves0, s) && Poised(s.me, IRS) && Poised(s.you, IRS)
    requires s.out != [] && s.out[0].frame == FloorGrant && s.inc != [] && s.inc[0].frame == FloorGrant
    ensures Reaches(n0, moves, n) && n.me.state.CONNECTED? && n.you.state.CONNECTED?
    ensures n.me.role.ISS? && n.you.role.ISS?
  {
    hide Reaches, RecutSafe;
    moves, n := MeTake(n0, moves0, s);
    moves, n := YouTake(n0, moves, n);
  }

  lemma YouTake(n0: Net, moves0: seq<Move>, s: Net) returns (moves: seq<Move>, n: Net)
    requires Reaches(n0, moves0, s) && Poised(s.you, IRS) && s.out != [] && s.out[0].frame == FloorGrant
    ensures Reaches(n0, moves, n) && n.you.state.CONNECTED? && n.you.role.ISS? && n.me == s.me
  {
    hide Reaches, RecutSafe;
    moves, n := YouStart(n0, moves0, s);
    moves, n := Go(n0, moves, n, Yours(Hear(FloorGrant)));
  }

  lemma MeTake(n0: Net, moves0: seq<Move>, s: Net) returns (moves: seq<Move>, n: Net)
    requires Reaches(n0, moves0, s) && Poised(s.me, IRS) && s.inc != [] && s.inc[0].frame == FloorGrant
    ensures Reaches(n0, moves, n) && n.me.state.CONNECTED? && n.me.role.ISS?
    ensures n == s.(me := n.me, inc := s.inc[1..])
  {
    hide Reaches, RecutSafe;
    moves, n := MeStart(n0, moves0, s);
    moves, n := Go(n0, moves, n, Mine(Hear(FloorGrant)));
  }

  /** Without the hypothesis that a failed call ends the session, both ends come to hold the floor. */
  lemma FloorTwice() returns (moves: seq<Move>, n: Net)
    ensures Start(Power()) && Reaches(Power(), moves, n)
    ensures n.me.state.CONNECTED? && n.you.state.CONNECTED? && n.me.role.ISS? && n.you.role.ISS?
  {
    PowerIsStart();
    var n0 := Power();
    moves, n := Connects();
    hide Reaches, RecutSafe;
    moves, n := GrantLost(n0, moves, n);
    moves, n := MeAsk(n0, moves, n);
    moves, n := YouAsk(n0, moves, n);
    moves, n := MeGrant(n0, moves, n);
    moves, n := YouGrant(n0, moves, n);
    moves, n := BothTake(n0, moves, n);
  }

  // -- listening that does not drain the queue ---------------------------------------

  /** As `Moved`, except that listening leaves what is already queued where it is. */
  function MovedUndrained(n: Net, m: Move): Net
    requires CanMove(n, m)
  {
    if m == Mine(Listen) then Moved(n, m).(inc := n.inc)
    else if m == Yours(Listen) then Moved(n, m).(out := n.out)
    else Moved(n, m)
  }

  ghost predicate ReachesUndrained(n: Net, moves: seq<Move>, last: Net)
    decreases |moves|
  {
    if moves == [] then n == last
    else CanMove(n, moves[0]) && ReachesUndrained(MovedUndrained(n, moves[0]), moves[1..], last)
  }

  lemma {:induction false} GoUndrained(n0: Net, moves: seq<Move>, n: Net, m: Move) returns (moves': seq<Move>, n': Net)
    requires ReachesUndrained(n0, moves, n) && CanMove(n, m)
    ensures ReachesUndrained(n0, moves', n') && n' == MovedUndrained(n, m) && moves' == moves + [m]
    decreases |moves|
  {
    moves', n' := moves + [m], MovedUndrained(n, m);
    if moves == [] {
      assert [m][1..] == [];
      assert moves + [m] == [m];
    } else {
      var rest, last := GoUndrained(MovedUndrained(n0, moves[0]), moves[1..], n, m);
      assert (moves + [m])[1..] == moves[1..] + [m];
    }
  }

  /** Each station calls, gives up and listens; each then answers the other's abandoned call. */
  lemma CrossedSessions() returns (moves: seq<Move>, n: Net)
    ensures Start(Power()) && ReachesUndrained(Power(), moves, n)
    ensures n.me.state.CONNECTED? && n.you.state.CONNECTED? && n.me.sid != n.you.sid
  {
    PowerIsStart();
    var n0 := Power();
    moves, n := Abandons();
    hide ReachesUndrained, RecutSafe;
    moves, n := BothListen(n0, moves, n);
    moves, n := GoUndrained(n0, moves, n, Mine(Hear(n.inc[0].frame)));
    moves, n := GoUndrained(n0, moves, n, Yours(Hear(n.out[0].frame)));
  }

  lemma BothListen(n0: Net, moves0: seq<Move>, s: Net) returns (moves: seq<Move>, n: Net)
    requires ReachesUndrained(n0, moves0, s) && s.me.task.Resting? && s.you.task.Resting?
    ensures ReachesUndrained(n0, moves, n)
    ensures n == s.(me := s.me.(state := LISTENING, task := Answering),
        you := s.you.(state := LISTENING, task := Answering))
  {
    hide ReachesUndrained, RecutSafe, React;
    moves, n := GoUndrained(n0, moves0, s, Mine(Listen));
    moves, n := GoUndrained(n0, moves, n, Yours(Listen));
  }

  /** A station calling `dst` under session id `sid`. */
  ghost predicate InCall(s: Station, call: string, dst: string, sid: nat) {
    && s.call == call && s.state.CONNECTING? && s.task.Calling?
    && s.task.body.Connect? && s.task.body.sid == sid && s.task.body.dst == dst
  }

  ghost predicate Abandoned(n: Net) {
    && n.me.task.Resting? && n.you.task.Resting? && n.me.call == "A" && n.you.call == "B"
    && n.out != [] && n.out[0].frame.Connect? && n.out[0].frame.sid == 1 && n.out[0].frame.dst == "B"
    && n.inc != [] && n.inc[0].frame.Connect? && n.inc[0].frame.sid == 2 && n.inc[0].frame.dst == "A"
  }

  lemma Abandons() returns (moves: seq<Move>, n: Net)
    ensures ReachesUndrained(Power(), moves, n) && Abandoned(n)
  {
    moves, n := CallsCross();
    hide ReachesUndrained, RecutSafe;
    moves, n := KeysCross(Power(), moves, n);
    moves, n := GivesUp(Power(), moves, n);
  }

  lemma CallsCross() returns (moves: seq<Move>, n: Net)
    ensures ReachesUndrained(Power(), moves, n)
    ensures InCall(n.me, "A", "B", 1) && InCall(n.you, "B", "A", 2) && n.out == [] && n.inc == []
  {
    var n0 := Power();
    moves, n := GoUndrained(n0, [], n0, Mine(Call("B", 1)));
    hide ReachesUndrained, RecutSafe;
    moves, n := GoUndrained(n0, moves, n, Yours(Call("A", 2)));
  }

  lemma KeysCross(n0: Net, moves0: seq<Move>, s: Net) returns (moves: seq<Move>, n: Net)
    requires ReachesUndrained(n0, moves0, s)
    requires InCall(s.me, "A", "B", 1) && InCall(s.you, "B", "A", 2) && s.out == [] && s.inc == []
    ensures ReachesUndrained(n0, moves, n)
    ensures n == s.(out := [Flight(s.me.task.body, 1)], inc := [Flight(s.you.task.body, 2)])
  {
    hide ReachesUndrained, RecutSafe;
    moves, n := GoUndrained(n0, moves0, s, Mine(KeyConnect));
    moves, n := GoUndrained(n0, moves, n, Yours(KeyConnect));
  }

  lemma GivesUp(n0: Net, moves0: seq<Move>, s: Net) returns (moves: seq<Move>, n: Net)
    requires ReachesUndrained(n0, moves0, s)
    requires InCall(s.me, "A", "B", 1) && InCall(s.you, "B", "A", 2)
    requires s.out == [Flight(s.me.task.body, 1)] && s.inc == [Flight(s.you.task.body, 2)]
    ensures ReachesUndrained(n0, moves, n) && Abandoned(n)
  {
    hide ReachesUndrained, RecutSafe;
    moves, n := GoUndrained(n0, moves0, s, Mine(GiveUpCall));
    moves, n := GoUndrained(n0, moves, n, Yours(GiveUpCall));
  }
}
