/**
 When a chunk may be cut again. The sender re-cuts a chunk it has no ACK for, on the grounds that
 nothing at the receiver can depend on its size. That is so exactly when no copy of the old cut was
 accepted and none is still queued, or the receiver will receive nothing more in the session; otherwise
 the rest of the message can go out in such a way that the receiver delivers bytes twice.
 */
module LinkRecut {
  import opened Common
  import opened LinkStation
  import opened LinkNet
  import opened LinkSession
  import opened LinkLanes
  import opened LinkRuns
  import opened LinkCalls
  import opened LinkMessages
  import opened LinkHistory
  import opened LinkTerms
  import opened LinkTheorems

  /** A station that can still come to receive in its session. */
  predicate Hearkens(s: Station) {
    s.state.CONNECTED? && (s.task.Resting? || s.task.Receiving? || s.task.Asking?)
  }

  ghost predicate NoCall(q: Queue, k: nat, call: string) {
    forall i :: 0 <= i < |q| ==> !(IsCall(q[i], k) && q[i].frame.dst == call)
  }

  /** The receiver is in the session and may come to receive, or is about to answer the call it began with again. */
  ghost predicate CanYetTake(n: Net) {
    Hearkens(n.you) || (n.you.task.Answering? && !NoCall(n.out, n.me.sid, n.you.call))
  }

  /** What the receiver holds is the beginning of what the sender was given. */
  ghost predicate Faithful(n: Net) {
    n.me.state.CONNECTED? && n.you.state.CONNECTED? ==>
      n.you.heard <= n.me.given && Flat(n.you.heard) + Partial(n.you) <= Flat(n.me.given)
  }

  /** And it stays so, as long as no further cut is inexact. */
  ghost predicate AlwaysFaithful(n: Net) {
    forall moves: seq<Move>, last: Net ::
      ReachesObediently(n.(exact := true), moves, last) && last.exact ==> Faithful(last)
  }

  /** What every reachable state satisfies, of stations with the same control mode. */
  ghost predicate Sane(n: Net) {
    Full(n) && Ledgers(n) && Terms(n) && Ordered(n)
  }

  lemma RecutExact(n: Net)
    requires Sane(n) && n.exact && CanAct(n, Recut)
    ensures RecutSafe(n) || !CanYetTake(n) <==> AlwaysFaithful(Played(n, Recut))
  {
    var n1 := Played(n, Recut);
    if RecutSafe(n) {
      RecutKeepsFaith(n);
    } else if CanYetTake(n) {
      var moves, last := Misdeliver(n);
      hide RecutSafe, Sane, Played, CanYetTake;
      assert ReachesObediently(n1.(exact := true), moves, last);
      LongerUnfaithful(last);
    } else {
      RecutTooLate(n);
    }
  }

  lemma RecutKeepsFaith(n: Net)
    requires Sane(n) && n.exact && CanAct(n, Recut) && RecutSafe(n)
    ensures AlwaysFaithful(Played(n, Recut))
  {
    var n1 := Played(n, Recut);
    hide RecutSafe;
    SaneMove(n, Mine(Recut));
    assert n1.exact && n1.(exact := true) == n1;
    hide Played, Sane;
    forall moves: seq<Move>, last: Net | ReachesObediently(n1.(exact := true), moves, last) && last.exact
      ensures Faithful(last)
    {
      SaneRun(n1, moves, last);
      SaneFaithful(last);
    }
  }

  lemma LongerUnfaithful(n: Net)
    requires n.me.state.CONNECTED? && n.you.state.CONNECTED? && |Flat(n.you.heard)| > |Flat(n.me.given)|
    ensures !Faithful(n)
  {
    assert |Flat(n.you.heard) + Partial(n.you)| > |Flat(n.me.given)|;
  }

  lemma SaneFaithful(n: Net)
    requires Sane(n) && n.exact
    ensures Faithful(n)
  {
    if n.me.state.CONNECTED? && n.you.state.CONNECTED? {
      assert Linked(n);
      assert Counts(true, n.me, n.you);
      hide Full, Ledger, Terms;
      CountsDeliver(true, n.me, n.you);
    }
  }

  /** By how much the chunk in hand is longer than the mode in use carries. */
  function Excess(s: Station): int {
    if s.hand.Some? then |s.hand.value.bytes| - s.tx.chunkSize else 0
  }

  /**
   After an unsafe re-cut: the rest of the message goes out, every chunk acknowledged, and the receiver
   has then delivered as many bytes too many as the old cut was longer than the new one.
   */
  lemma Misdeliver(n: Net) returns (moves: seq<Move>, last: Net)
    requires CanAct(n, Recut) && n.exact && Sane(n) && CanYetTake(n) && !RecutSafe(n)
    ensures Leads(Played(n, Recut).(exact := true), moves, last) && last.exact
    ensures Leads(Played(n, Recut), moves, last.(exact := false))
    ensures last.me.state.CONNECTED? && last.you.state.CONNECTED? && last.me.given == n.me.given
    ensures !(last.you.heard <= last.me.given)
    ensures |Flat(last.you.heard)| == |Flat(last.me.given)| + Excess(n.me) && Excess(n.me) > 0
  {
    RecutFacts(n);
    hide *;
    var d, n1 := Excess(n.me), Moved(n, Mine(Recut));
    SaneMove(n, Mine(Recut));
    var accepts, n2 := TakesOld(n);
    var end;
    moves, end := RepeatsNew(n1, accepts, n2, n.me.hand.value, d);
    ExactAside(n1, moves, end, true);
    ExactAside(n1, moves, end, false);
    SaneLeads(n1, moves, end);
    TooMuch(end, d);
    BehindConnected(end, d);
    last := end.(exact := true);
  }

  lemma BehindConnected(n: Net, d: int)
    requires Behind(n, d)
    ensures n.me.state.CONNECTED? && n.you.state.CONNECTED?
  {
  }

  /** What a re-cut changes: a longer cut for one as long as the mode carries. */
  lemma RecutFacts(n: Net)
    requires Sane(n) && CanAct(n, Recut)
    ensures CanMove(n, Mine(Recut)) && ObedientMove(n, Mine(Recut))
    ensures var n1 := Moved(n, Mine(Recut));
      && n1 == n.(me := n1.me, exact := n1.exact) && n1 == Played(n, Recut)
      && n1.me == n.me.(hand := n1.me.hand) && n1.me.hand.Some? && n.me.hand.Some?
      && n1.me.task.Sending? && !n1.me.task.finished && !n1.me.hand.value.eof
      && |n1.me.hand.value.bytes| == n.me.tx.chunkSize < |n.me.hand.value.bytes|
      && Excess(n.me) == |n.me.hand.value.bytes| - n.me.tx.chunkSize
      && (!RecutSafe(n) ==> !n1.exact)
  {
    SendingLedger(n);
    hide Sane, RecutSafe, Ledger, CutAt;
    CutInHand(n.me);
    CutsFull(n.me.task.data, n.me.task.offset, n.me.tx.chunkSize);
    assert n.out + [] == n.out;
  }

  lemma SendingLedger(n: Net)
    requires Sane(n) && n.me.task.Sending?
    ensures Ledger(n.me)
  {
    assert Shape(n.me);
    SaneLedgers(n);
  }

  lemma CutInHand(s: Station)
    requires Ledger(s) && s.task.Sending? && s.hand.Some?
    ensures !s.task.finished && s.task.offset + |s.hand.value.bytes| <= |s.task.data|
  {
  }

  /** The receiver has the old cut, or comes to take a copy of it from the queue. */
  lemma TakesOld(n: Net) returns (moves: seq<Move>, last: Net)
    requires Sane(n) && n.exact && CanAct(n, Recut) && CanYetTake(n) && !RecutSafe(n)
    ensures n.me.hand.Some? && Leads(Moved(n, Mine(Recut)), moves, last) && Hearkens(last.you)
    ensures last.me == Moved(n, Mine(Recut)).me && last.you.taken == last.me.acked + [n.me.hand.value]
  {
    hide RecutSafe, Sane, Moved, CanMove;
    if Hearkens(n.you) { moves, last := HearsOld(n); } else { moves, last := AnswersOld(n); }
  }

  lemma HearsOld(n: Net) returns (moves: seq<Move>, last: Net)
    requires Sane(n) && n.exact && CanAct(n, Recut) && Hearkens(n.you) && !RecutSafe(n)
    ensures n.me.hand.Some? && Leads(Moved(n, Mine(Recut)), moves, last) && Hearkens(last.you)
    ensures last.me == Moved(n, Mine(Recut)).me && last.you.taken == last.me.acked + [n.me.hand.value]
  {
    hide *;
    RecutFacts(n);
    Hearkening(n.you);
    var k := OldCopy(n);
    var n1 := Moved(n, Mine(Recut));
    Idle(n1);
    if n.you.taken == n.me.acked + [n.me.hand.value] {
      moves, last := [], n1;
    } else {
      moves, last := DeliverQueued(n1, [], n1, k);
    }
  }

  /** The old cut is queued behind a CONNECT the receiver answers again. */
  lemma AnswersOld(n: Net) returns (moves: seq<Move>, last: Net)
    requires Sane(n) && n.exact && CanAct(n, Recut) && !RecutSafe(n)
    requires n.you.task.Answering? && !NoCall(n.out, n.me.sid, n.you.call)
    ensures n.me.hand.Some? && Leads(Moved(n, Mine(Recut)), moves, last) && Hearkens(last.you)
    ensures last.me == Moved(n, Mine(Recut)).me && last.you.taken == last.me.acked + [n.me.hand.value]
  {
    hide *;
    RecutFacts(n);
    var i, k := OldBehindCall(n);
    var n1 := Moved(n, Mine(Recut));
    Idle(n1);
    moves, last := DropTo(n1, [], n1, i);
    assert last.out[0] == n.out[i];
    moves, last := AnswerFirst(n1, moves, last, n.out[i].frame);
    assert last.out[k - i - 1] == n.out[k];
    moves, last := DeliverQueued(n1, moves, last, k - i - 1);
  }

  lemma Idle(n: Net)
    ensures Leads(n, [], n)
  {
  }

  lemma AnswerFirst(n0: Net, moves0: seq<Move>, n: Net, c: Frame) returns (moves: seq<Move>, last: Net)
    requires Leads(n0, moves0, n) && n.you.task.Answering? && n.out != [] && n.out[0].frame == c
    requires c.Connect? && c.dst == n.you.call
    ensures Leads(n0, moves, last) && last.me == n.me && last.out == n.out[1..]
    ensures Hearkens(last.you) && last.you.taken == [] && last.you.rxExpect == 0
  {
    hide Leads, RecutSafe, Answer;
    moves, last := Go(n0, moves0, n, Yours(Hear(c)));
  }

  lemma OldBehindCall(n: Net) returns (i: nat, k: nat)
    requires Sane(n) && n.exact && CanAct(n, Recut) && !RecutSafe(n)
    requires n.you.task.Answering? && !NoCall(n.out, n.me.sid, n.you.call)
    ensures i < k < |n.out| && n.out[i].frame.Connect? && n.out[i].frame.dst == n.you.call
    ensures n.out[k].frame.Data? && n.out[k].frame.seqNo == 0
    ensures n.me.acked == [] && n.me.hand == Some(Chunk(n.out[k].frame.chunk, n.out[k].frame.eof))
  {
    var s := n.me.sid;
    RecutFacts(n);
    hide *;
    i := CalledBack(n.out, s, n.you.call);
    AnsweringFacts(n, i);
    k := QueuedCopy(n);
    NewbornData(n.(you := Newborn(n.you)), s, k);
    CallAhead(n.out, s, i, k, |n.me.acked|);
  }

  lemma CalledBack(q: Queue, s: nat, call: string) returns (i: nat)
    requires !NoCall(q, s, call)
    ensures i < |q| && IsCall(q[i], s) && q[i].frame.Connect? && q[i].frame.dst == call
  {
    i :| 0 <= i < |q| && IsCall(q[i], s) && q[i].frame.dst == call;
  }

  lemma QueuedCopy(n: Net) returns (k: nat)
    requires !RecutSafe(n) && !n.you.state.CONNECTED?
    ensures k < |n.out| && IsData(n.out[k], n.me.sid, |n.me.acked|)
  {
    k :| 0 <= k < |n.out| && IsData(n.out[k], n.me.sid, |n.me.acked|);
  }

  lemma CallAhead(q: Queue, s: nat, i: nat, k: nat, m: nat)
    requires CallsFirst(q) && i < |q| && k < |q| && IsCall(q[i], s) && IsData(q[k], s, m)
    ensures i < k && q[k].frame.Data?
  {
  }

  lemma AnsweringFacts(n: Net, i: nat)
    requires Sane(n) && n.me.task.Sending? && n.you.task.Answering? && i < |n.out| && IsCall(n.out[i], n.me.sid)
    ensures !n.you.state.CONNECTED? && CallsFirst(n.out) && Newborn(n.you).taken == []
    ensures Pair(n.(you := Newborn(n.you)), n.me.sid)
  {
    assert Shape(n.me) && Shape(n.you) && CallDue(Swap(n)) && Linked(n);
    hide Sane, Pair;
    assert Called(n.out) && Partner(n) == Some(Newborn(n.you));
  }

  lemma NewbornData(n: Net, s: nat, k: nat)
    requires Pair(n, s) && n.exact && n.you.taken == [] && k < |n.out| && IsData(n.out[k], s, |n.me.acked|)
    ensures n.out[k].frame.Data?
    ensures n.me.acked == [] && n.me.hand == Some(Chunk(n.out[k].frame.chunk, n.out[k].frame.eof))
    ensures n.out[k].frame.seqNo == 0
  {
  }

  lemma Hearkening(s: Station)
    requires Hearkens(s)
    ensures s.state.CONNECTED?
  {
  }

  lemma OldCopy(n: Net) returns (k: nat)
    requires Sane(n) && n.exact && CanAct(n, Recut) && n.you.state.CONNECTED? && !RecutSafe(n)
    ensures n.me.hand.Some?
    ensures n.you.taken != n.me.acked + [n.me.hand.value] ==>
      && k < |n.out| && n.out[k].frame.Data? && n.out[k].frame.seqNo == n.you.rxExpect && n.you.taken == n.me.acked
      && Chunk(n.out[k].frame.chunk, n.out[k].frame.eof) == n.me.hand.value
  {
    var m := |n.me.acked|;
    assert Shape(n.me) && Linked(n) && Pair(n, n.me.sid);
    assert Counts(true, n.me, n.you) && DataQueued(true, n.me, n.you, n.out, n.me.sid) && Paced(n.you);
    hide Sane, Pair;
    k := 0;
    if |n.you.taken| == m {
      k :| 0 <= k < |n.out| && IsData(n.out[k], n.me.sid, m);
    }
  }

  /**
   The sender between two chunks, the receiver holding as many chunks as were acknowledged, but `d`
   bytes more.
   */
  ghost predicate Behind(n: Net, d: int) {
    && n.me.state.CONNECTED? && n.me.task.Sending? && n.me.hand.None? && Hearkens(n.you)
    && |n.you.taken| == |n.me.acked| && |ChunkBytes(n.you.taken)| == |ChunkBytes(n.me.acked)| + d
    && (n.me.task.finished ==> Tail(n.you.taken) == [])
    && (!n.me.task.finished ==> n.me.task.offset < |n.me.task.data|)
  }

  /** The new, smaller cut is dropped as a duplicate but acknowledged; everything after it is accepted. */
  lemma RepeatsNew(n0: Net, moves0: seq<Move>, n: Net, old_: Chunk, d: int)
      returns (moves: seq<Move>, last: Net)
    requires Sane(n0) && Leads(n0, moves0, n) && Hearkens(n.you)
    requires n.me.task.Sending? && n.me.hand.Some? && !n.me.task.finished
    requires |n.me.hand.value.bytes| == n.me.tx.chunkSize && d == |old_.bytes| - n.me.tx.chunkSize > 0
    requires !n.me.hand.value.eof && n.you.taken == n.me.acked + [old_]
    ensures Leads(n0, moves, last) && last.me.given == n.me.given
    ensures Behind(last, d) && last.me.task.finished
  {
    hide Sane, Leads, ChunkBytes, Tail;
    SaneLeads(n0, moves0, n);
    SendingFacts(n);
    var ready, n2 := GetReady(n0, moves0, n);
    var after, n3 := Exchange(n0, ready, n2);
    ChunkBytesMore(n.me.acked, old_);
    ChunkBytesMore(n.me.acked, n.me.hand.value);
    assert Behind(n3, d);
    hide Behind;
    moves, last := Finish(n0, after, n3, d);
  }

  lemma {:induction false} Finish(n0: Net, moves0: seq<Move>, n: Net, d: int) returns (moves: seq<Move>, last: Net)
    requires Sane(n0) && Leads(n0, moves0, n) && Behind(n, d)
    ensures Leads(n0, moves, last) && last.me.given == n.me.given && Behind(last, d) && last.me.task.finished
    decreases |n.me.task.data| - n.me.task.offset
  {
    moves, last := moves0, n;
    if !n.me.task.finished {
      hide Sane, Tail, ChunkBytes;
      SaneLeads(n0, moves0, n);
      SendingFacts(n);
      moves, last := NextChunk(n0, moves0, n, d);
      moves, last := Finish(n0, moves, last, d);
    }
  }

  /** The next chunk is cut, keyed, accepted and acknowledged. */
  lemma NextChunk(n0: Net, moves0: seq<Move>, n: Net, d: int) returns (moves: seq<Move>, last: Net)
    requires Sane(n0) && Leads(n0, moves0, n) && Behind(n, d) && !n.me.task.finished
    ensures Leads(n0, moves, last) && last.me.given == n.me.given && Behind(last, d)
    ensures last.me.task.data == n.me.task.data && last.me.task.offset > n.me.task.offset
  {
    hide Sane, Leads, ChunkBytes, Tail, CutAt;
    SaneLeads(n0, moves0, n);
    SendingFacts(n);
    var ready, n2 := GetReady(n0, moves0, n);
    var cuts, n3 := CutNext(n0, ready, n2);
    var ch := n3.me.hand.value;
    CutsFull(n.me.task.data, n.me.task.offset, n.me.tx.chunkSize);
    moves, last := Exchange(n0, cuts, n3);
    ChunkBytesMore(n.me.acked, ch);
    ChunkBytesMore(n.you.taken, ch);
    OneMore(n.you.taken, ch);
  }

  lemma CutNext(n0: Net, moves0: seq<Move>, n: Net) returns (moves: seq<Move>, last: Net)
    requires Leads(n0, moves0, n) && CanAct(n, Cut)
    ensures Leads(n0, moves, last)
    ensures last == n.(me := n.me.(hand := Some(CutAt(n.me.task.data, n.me.task.offset, n.me.tx.chunkSize))))
  {
    hide Leads, RecutSafe, CutAt;
    moves, last := Go(n0, moves0, n, Mine(Cut));
    assert n.out + [] == n.out;
  }

  // -- the moves of it --------------------------------------------------------------------------

  /** No station is given another message, and nothing is cut again. */
  predicate Steady(m: Move) {
    && (m.Mine? ==> !m.act.Recut? && !m.act.StartSend?)
    && (m.Yours? ==> !m.act.Recut? && !m.act.StartSend?)
  }

  ghost predicate Leads(n: Net, moves: seq<Move>, last: Net) {
    ReachesObediently(n, moves, last) && forall m :: m in moves ==> Steady(m)
  }

  lemma Go(n0: Net, moves: seq<Move>, n: Net, m: Move) returns (moves': seq<Move>, n': Net)
    requires Leads(n0, moves, n) && CanMove(n, m) && ObedientMove(n, m) && Steady(m)
    ensures Leads(n0, moves', n') && n' == Moved(n, m)
  {
    hide CanMove, Moved;
    Extended(n0, moves, n, m);
    moves', n' := moves + [m], Moved(n, m);
  }

  lemma {:induction false} ExactAside(n: Net, moves: seq<Move>, last: Net, e: bool)
    requires Leads(n, moves, last)
    ensures Leads(n.(exact := e), moves, last.(exact := e))
    decreases |moves|
  {
    if moves != [] {
      var m := moves[0];
      assert m in moves;
      assert forall k :: k in moves[1..] ==> k in moves;
      MovedAside(n, m, e);
      hide Moved, CanMove, Steady;
      ExactAside(Moved(n, m), moves[1..], last, e);
    }
  }

  lemma MovedAside(n: Net, m: Move, e: bool)
    requires CanMove(n, m) && Steady(m)
    ensures CanMove(n.(exact := e), m) && Moved(n.(exact := e), m) == Moved(n, m).(exact := e)
  {
    hide RecutSafe, Do, Can;
  }

  /** Nothing is queued, and the receiver is listening for data. */
  lemma GetReady(n0: Net, moves0: seq<Move>, n: Net) returns (moves: seq<Move>, last: Net)
    requires Leads(n0, moves0, n) && Hearkens(n.you)
    ensures Leads(n0, moves, last) && last.me == n.me && last.out == [] && last.inc == []
    ensures Listens(n, last)
  {
    moves, last := Clear(n0, moves0, n);
    moves, last := MakeReady(n0, moves, last);
  }

  predicate Listens(n: Net, last: Net) {
    && last.you.state.CONNECTED? && (last.you.task.Receiving? || last.you.task.Asking?)
    && last.you.taken == n.you.taken && last.you.rxExpect == n.you.rxExpect && last.you.reg == n.you.reg
  }

  lemma {:induction false} Clear(n0: Net, moves0: seq<Move>, n: Net) returns (moves: seq<Move>, last: Net)
    requires Leads(n0, moves0, n)
    ensures Leads(n0, moves, last) && last == n.(out := [], inc := [])
    decreases |n.out| + |n.inc|
  {
    moves, last := moves0, n;
    if n.out != [] || n.inc != [] {
      hide Leads;
      moves, last := Go(n0, moves0, n, if n.out != [] then LoseOut(0) else LoseInc(0));
      moves, last := Clear(n0, moves, last);
    }
  }

  /** The receiver comes to listen for data. */
  lemma {:induction false} MakeReady(n0: Net, moves0: seq<Move>, n: Net) returns (moves: seq<Move>, last: Net)
    requires Leads(n0, moves0, n) && Hearkens(n.you)
    ensures Leads(n0, moves, last) && last.me == n.me && last.out == n.out && last.inc == n.inc
    ensures Listens(n, last)
    decreases |n.you.pending|
  {
    moves, last := moves0, n;
    hide Leads, RecutSafe;
    if n.you.task.Resting? {
      if n.you.pending != [] {
        moves, last := Go(n0, moves0, n, Yours(PopPending));
        hide Moved;
        moves, last := MakeReady(n0, moves, last);
      } else {
        moves, last := Go(n0, moves0, n, Yours(StartRecv));
      }
    }
  }

  /** One chunk keyed, heard, answered and acknowledged. */
  lemma Exchange(n0: Net, moves0: seq<Move>, n: Net) returns (moves: seq<Move>, last: Net)
    requires Leads(n0, moves0, n) && n.out == [] && n.inc == []
    requires n.me.state.CONNECTED? && n.me.task.Sending? && n.me.hand.Some?
    requires |n.me.hand.value.bytes| <= n.me.tx.chunkSize && n.me.txSeq == |n.me.acked| % SEQ_MODULO
    requires n.you.state.CONNECTED? && (n.you.task.Receiving? || n.you.task.Asking?)
    requires n.you.rxExpect == |n.you.taken| % SEQ_MODULO && n.you.reg.Supports(n.me.tx.id)
    requires |n.me.acked| <= |n.you.taken| <= |n.me.acked| + 1
    ensures Leads(n0, moves, last) && last.me == TakeAck(n.me) && Hearkens(last.you)
    ensures last.you.taken == if |n.you.taken| == |n.me.acked| then n.you.taken + [n.me.hand.value] else n.you.taken
  {
    hide Leads, RecutSafe;
    var f := Data(n.me.txSeq, n.me.hand.value.eof, n.me.hand.value.bytes, n.me.tx.id);
    var ack := DataAck(n.me.txSeq, (|n.me.acked| + 1) % SEQ_MODULO, n.me.tx.id);
    NextSeq(|n.me.acked|);
    TakesChunk(n.you, f, ack, n.me.acked);
    moves, last := KeyChunk(n0, moves0, n, f);
    moves, last := HearChunk(n0, moves, last, f, ack);
    moves, last := HearAck(n0, moves, last, ack);
  }

  lemma TakesChunk(s: Station, f: Frame, ack: Frame, acked: seq<Chunk>)
    requires s.state.CONNECTED? && (s.task.Receiving? || s.task.Asking?) && f.Data?
    requires s.rxExpect == |s.taken| % SEQ_MODULO && s.reg.Supports(f.mode) && f.seqNo == |acked| % SEQ_MODULO
    requires |acked| <= |s.taken| <= |acked| + 1
    requires ack == DataAck(f.seqNo, (|acked| + 1) % SEQ_MODULO, f.mode)
    ensures var d := React(s, f);
      && d.out == Some(ack) && Hearkens(d.st) && d.st.sid == s.sid
      && d.st.taken == if |s.taken| == |acked| then s.taken + [Chunk(f.chunk, f.eof)] else s.taken
  {
    NextSeq(|acked|);
    hide Registry.Supports, Registry.Index;
  }

  lemma KeyChunk(n0: Net, moves0: seq<Move>, n: Net, f: Frame) returns (moves: seq<Move>, last: Net)
    requires Leads(n0, moves0, n) && n.out == [] && n.me.task.Sending? && n.me.hand.Some?
    requires |n.me.hand.value.bytes| <= n.me.tx.chunkSize
    requires f == Data(n.me.txSeq, n.me.hand.value.eof, n.me.hand.value.bytes, n.me.tx.id)
    ensures Leads(n0, moves, last) && last == n.(out := [Flight(f, n.me.sid)])
  {
    hide Leads, RecutSafe;
    moves, last := Go(n0, moves0, n, Mine(Key));
  }

  lemma HearChunk(n0: Net, moves0: seq<Move>, n: Net, f: Frame, ack: Frame) returns (moves: seq<Move>, last: Net)
    requires Leads(n0, moves0, n) && |n.out| == 1 && n.out[0].frame == f && n.inc == []
    requires Hearing(n.you) && React(n.you, f).out == Some(ack) && ack.DataAck?
    ensures Leads(n0, moves, last)
    ensures last == n.(you := React(n.you, f).st, out := [], inc := [Flight(ack, n.you.sid)])
  {
    hide Leads, RecutSafe, React;
    moves, last := Go(n0, moves0, n, Yours(Hear(f)));
  }

  lemma HearAck(n0: Net, moves0: seq<Move>, n: Net, ack: Frame) returns (moves: seq<Move>, last: Net)
    requires Leads(n0, moves0, n) && |n.inc| == 1 && n.inc[0].frame == ack
    requires n.me.state.CONNECTED? && n.me.task.Sending? && n.me.hand.Some? && Confirms(n.me, ack)
    ensures Leads(n0, moves, last) && last == n.(me := TakeAck(n.me), inc := [])
  {
    hide Leads, RecutSafe;
    moves, last := Go(n0, moves0, n, Mine(Hear(ack)));
  }

  /** The k-th queued DATA, of the sequence the receiver expects, can be the next thing it takes. */
  lemma DeliverQueued(n0: Net, moves0: seq<Move>, n: Net, k: nat) returns (moves: seq<Move>, last: Net)
    requires Leads(n0, moves0, n)
    requires Hearkens(n.you) && k < |n.out| && n.out[k].frame.Data? && n.out[k].frame.seqNo == n.you.rxExpect
    ensures Leads(n0, moves, last) && last.me == n.me && Hearkens(last.you)
    ensures last.you.taken == n.you.taken + [Chunk(n.out[k].frame.chunk, n.out[k].frame.eof)]
  {
    var f := n.out[k].frame;
    moves, last := DropTo(n0, moves0, n, k);
    moves, last := MakeReady(n0, moves, last);
    assert last.out[0].frame == f;
    hide Leads, RecutSafe;
    TakesFirst(last.you, f);
    hide React, Hearing;
    moves, last := HearFirst(n0, moves, last, f);
  }

  lemma HearFirst(n0: Net, moves0: seq<Move>, n: Net, f: Frame) returns (moves: seq<Move>, last: Net)
    requires Leads(n0, moves0, n) && n.out != [] && n.out[0].frame == f && Hearing(n.you)
    ensures Leads(n0, moves, last) && last.me == n.me && last.you == React(n.you, f).st
  {
    hide Leads, RecutSafe, React, Hearing;
    moves, last := Go(n0, moves0, n, Yours(Hear(f)));
  }

  lemma TakesFirst(s: Station, f: Frame)
    requires s.state.CONNECTED? && (s.task.Receiving? || s.task.Asking?) && f.Data? && f.seqNo == s.rxExpect
    ensures Hearing(s) && Hearkens(React(s, f).st) && React(s, f).st.taken == s.taken + [Chunk(f.chunk, f.eof)]
  {
  }

  lemma {:induction false} DropTo(n0: Net, moves0: seq<Move>, n: Net, k: nat) returns (moves: seq<Move>, last: Net)
    requires Leads(n0, moves0, n) && k <= |n.out|
    ensures Leads(n0, moves, last) && last == n.(out := n.out[k..])
    decreases k
  {
    moves, last := moves0, n;
    if k > 0 {
      hide Leads;
      moves, last := Go(n0, moves0, n, LoseOut(0));
      assert last.out == n.out[1..];
      moves, last := DropTo(n0, moves, last, k - 1);
    }
  }

  lemma {:induction false} Appended(n: Net, first: seq<Move>, mid: Net, second: seq<Move>, last: Net)
    requires ReachesObediently(n, first, mid) && ReachesObediently(mid, second, last)
    ensures ReachesObediently(n, first + second, last)
    decreases |first|
  {
    hide Moved, CanMove;
    if first == [] {
      assert first + second == second;
    } else {
      Appended(Moved(n, first[0]), first[1..], mid, second, last);
      assert (first + second)[1..] == first[1..] + second;
    }
  }

  lemma Extended(n: Net, first: seq<Move>, mid: Net, m: Move)
    requires ReachesObediently(n, first, mid) && CanMove(mid, m) && ObedientMove(mid, m)
    ensures ReachesObediently(n, first + [m], Moved(mid, m))
  {
    assert [m][1..] == [];
    Appended(n, first, mid, [m], Moved(mid, m));
  }

  // -- what holds all along --------------------------------------------------------------------------

  lemma SaneMove(n: Net, m: Move)
    requires Sane(n) && CanMove(n, m) && ObedientMove(n, m)
    ensures Sane(Moved(n, m))
  {
    assert Inv(n);
    hide Full, Ledgers, Terms, Ordered, Moved, CanMove, Inv;
    MoveFull(n, m);
    OrderedMove(n, m);
    LedgerMove(n, m);
    TermsMove(n, m);
  }

  lemma {:induction false} SaneRun(n: Net, moves: seq<Move>, last: Net)
    requires Sane(n) && ReachesObediently(n, moves, last)
    ensures Sane(last)
    decreases |moves|
  {
    if moves != [] {
      hide Sane, Moved, CanMove;
      SaneMove(n, moves[0]);
      SaneRun(Moved(n, moves[0]), moves[1..], last);
    }
  }

  lemma SaneLeads(n: Net, moves: seq<Move>, last: Net)
    requires Sane(n) && Leads(n, moves, last)
    ensures Sane(last)
  {
    SaneRun(n, moves, last);
  }

  /** What a sender and its receiver know of each other. */
  lemma SendingFacts(n: Net)
    requires Sane(n) && n.me.task.Sending? && n.you.state.CONNECTED?
    ensures var m, y := n.me, n.you;
      && m.state.CONNECTED? && m.txSeq == |m.acked| % SEQ_MODULO && m.tx.chunkSize > 0
      && y.rxExpect == |y.taken| % SEQ_MODULO && y.reg.Supports(m.tx.id)
      && |m.acked| <= |y.taken| <= |m.acked| + 1 && m.task.offset <= |m.task.data|
      && (!m.task.finished && m.hand.Some? ==>
            && m.task.offset + |m.hand.value.bytes| <= |m.task.data|
            && (m.hand.value.eof <==> m.task.offset + |m.hand.value.bytes| == |m.task.data|))
  {
    assert Shape(n.me) && Linked(n) && Counts(n.exact, n.me, n.you);
    assert Ledger(n.me) && Knows(n.me, n.you.reg);
  }

  lemma SaneLedgers(n: Net)
    requires Sane(n)
    ensures (n.me.state.CONNECTED? ==> Ledger(n.me)) && (n.you.state.CONNECTED? ==> Ledger(n.you))
  {
    hide Full, Terms, Ledger;
  }

  /** The sender is through with its message: what the receiver delivered is longer. */
  lemma TooMuch(n: Net, d: int)
    requires Sane(n) && Behind(n, d) && n.me.task.finished && d > 0
    ensures |Flat(n.you.heard)| == |Flat(n.me.given)| + d && !(n.you.heard <= n.me.given)
  {
    var m, y := n.me, n.you;
    hide Sane, Ledger, Flat, Tail, ChunkBytes;
    SaneLedgers(n);
    SentBytes(m);
    HeardBytes(y);
    hide Behind;
    if y.heard <= m.given {
      assert m.given == y.heard + m.given[|y.heard|..];
      FlatPrefix(y.heard, m.given[|y.heard|..]);
    }
  }

  lemma SentBytes(s: Station)
    requires Ledger(s) && s.task.Sending? && s.task.finished
    ensures ChunkBytes(s.acked) == Flat(s.given)
  {
    assert Messages(s.acked) == s.given && Tail(s.acked) == [];
    hide Ledger;
    Reassembled(s.acked);
    assert Flat(s.given) + [] == Flat(s.given);
  }

  lemma HeardBytes(s: Station)
    requires Ledger(s) && Tail(s.taken) == []
    ensures ChunkBytes(s.taken) == Flat(s.heard)
  {
    assert s.heard == Messages(s.taken);
    hide Ledger;
    Reassembled(s.taken);
    assert Flat(s.heard) + [] == Flat(s.heard);
  }

  // -- a receiver that will receive nothing more ---------------------------------------------------------

  predicate In(s: Station, k: nat) {
    s.state.CONNECTED? && s.sid == k
  }

  /** The net, exact as far as sessions other than `k` go. */
  function Beside(n: Net, k: nat): Net {
    n.(exact := n.exact && !In(n.me, k) && !In(n.you, k))
  }

  /** Nobody comes into session `k` any more, and if the receiver is still in it, it is only to leave. */
  ghost predicate Closed(n: Net, k: nat) {
    Full(Beside(n, k)) && Ledgers(n) && Shut(n, k)
  }

  ghost predicate Shut(n: Net, k: nat) {
    && k < n.next
    && !(n.me.state.CONNECTING? && n.me.sid == k) && !(n.you.state.CONNECTING? && n.you.sid == k)
    && (n.me.task.Answering? ==> NoCall(n.inc, k, n.me.call))
    && (n.you.task.Answering? ==> NoCall(n.out, k, n.you.call))
    && (In(n.you, k) ==> (n.you.task.Failed? || n.you.task.Leaving?) && (In(n.me, k) ==> Faithful(n)))
  }

  lemma RecutTooLate(n: Net)
    requires Sane(n) && n.exact && CanAct(n, Recut) && !CanYetTake(n)
    ensures AlwaysFaithful(Played(n, Recut))
  {
    var n1, k := Played(n, Recut), n.me.sid;
    RecutFacts(n);
    SaneMove(n, Mine(Recut));
    SaneFaithful(n);
    ClosesOn(n);
    hide Sane, Played, RecutSafe, CanMove, Moved;
    assert Closed(n1.(exact := true), k);
    forall moves: seq<Move>, last: Net | ReachesObediently(n1.(exact := true), moves, last) && last.exact
      ensures Faithful(last)
    {
      ClosedRun(n1.(exact := true), moves, last, k);
      ClosedFaithful(last, k);
    }
  }

  lemma ClosesOn(n: Net)
    requires Sane(n) && CanAct(n, Recut) && !CanYetTake(n) && Faithful(n)
    ensures Closed(Played(n, Recut).(exact := true), n.me.sid)
  {
    var n1, k := Played(n, Recut), n.me.sid;
    RecutFacts(n);
    SaneMove(n, Mine(Recut));
    SaneFull(n1);
    FullTint(n1, false);
    assert n.me.state.CONNECTED? by { SaneFull(n); assert Shape(n.me); }
    assert Beside(n1.(exact := true), k) == n1.(exact := false);
    ShutsOn(n);
    hide Sane, RecutSafe, Played, Ledger, Full, Shut;
  }

  lemma SaneFull(n: Net)
    requires Sane(n)
    ensures Full(n) && Ledgers(n)
  {
    hide Full, Ledgers, Terms;
  }

  lemma ShutsOn(n: Net)
    requires Sane(n) && CanAct(n, Recut) && !CanYetTake(n) && Faithful(n)
    ensures Shut(Played(n, Recut).(exact := true), n.me.sid)
  {
    RecutFacts(n);
    ShutFacts(n);
    hide Sane, RecutSafe, Played, CanAct, Faithful, NoCall;
  }

  /** The sender's session is long begun at the other end too, if it is there at all. */
  lemma ShutFacts(n: Net)
    requires Sane(n) && n.me.task.Sending?
    ensures n.me.state.CONNECTED? && n.me.sid < n.next && Shape(n.you)
    ensures n.you.state.CONNECTED? ==> n.you.sid == n.me.sid && !n.you.task.Sending?
    ensures !(n.you.state.CONNECTING? && n.you.sid == n.me.sid)
  {
    assert Shape(n.me) && Shape(n.you) && Linked(n) && Together(n) && Issued(n);
    assert AnswerDue(Swap(n)) && Virgin(Swap(n));
    hide Sane, Ledger;
  }

  lemma ClosedFaithful(n: Net, k: nat)
    requires Closed(n, k) && n.exact
    ensures Faithful(n)
  {
    if n.me.state.CONNECTED? && n.you.state.CONNECTED? {
      var t := Beside(n, k);
      assert Together(t) && Linked(t);
      if n.me.sid != k {
        assert Counts(true, n.me, n.you);
        hide Full, Ledger;
        CountsDeliver(true, n.me, n.you);
      }
    }
  }

  lemma {:induction false} ClosedRun(n: Net, moves: seq<Move>, last: Net, k: nat)
    requires Closed(n, k) && ReachesObediently(n, moves, last)
    ensures Closed(last, k)
    decreases |moves|
  {
    if moves != [] {
      hide Closed, Moved, CanMove;
      ClosedMove(n, moves[0], k);
      ClosedRun(Moved(n, moves[0]), moves[1..], last, k);
    }
  }

  lemma ClosedMove(n: Net, m: Move, k: nat)
    requires Closed(n, k) && CanMove(n, m) && ObedientMove(n, m)
    ensures Closed(Moved(n, m), k)
  {
    assert Inv(Beside(n, k));
    assert Shape(n.me) && Shape(n.you);
    hide RecutSafe, Full, Shut, Inv, Ledgers, Shape, Played, Can;
    BesideMove(n, m, k);
    BesideLedgers(n, m, k);
    match m
    case Mine(a) => ShutMine(n, a, k);
    case Yours(a) => ShutYours(n, a, k);
    case LoseOut(i) => ShutLoss(n, m, k);
    case LoseInc(i) => ShutLoss(n, m, k);
  }

  lemma BesideMove(n: Net, m: Move, k: nat)
    requires Full(Beside(n, k)) && CanMove(n, m) && ObedientMove(n, m)
    ensures Full(Beside(Moved(n, m), k))
  {
    hide Full, Played, CanAct;
    match m
    case Mine(a) => BesideAct(n, a, k);
    case Yours(a) =>
      FullFlips(Beside(n, k));
      assert Beside(Swap(n), k) == Swap(Beside(n, k));
      BesideAct(Swap(n), a, k);
      FullFlips(Beside(Played(Swap(n), a), k));
      assert Beside(Moved(n, m), k) == Swap(Beside(Played(Swap(n), a), k));
    case LoseOut(i) => LossFull(Beside(n, k), i);
    case LoseInc(i) =>
      FullFlips(Beside(n, k));
      LossFull(Swap(Beside(n, k)), i);
      FullFlips(Swap(Beside(Moved(n, m), k)));
  }

  lemma BesideAct(n: Net, a: Act, k: nat)
    requires Full(Beside(n, k)) && CanAct(n, a) && Obedient(n, a)
    ensures Full(Beside(Played(n, a), k))
  {
    var t, n' := Beside(n, k), Played(n, a);
    assert RecutSafe(t) == RecutSafe(n);
    assert Shape(n.me) && Together(t);
    hide RecutSafe, Full;
    ActFull(t, a);
    StaysIn(n.me, a);
    hide Do, Can, Shape;
    FullTint(Played(t, a), Beside(n', k).exact);
    assert Beside(n', k) == Played(t, a).(exact := Beside(n', k).exact);
  }

  lemma BesideLedgers(n: Net, m: Move, k: nat)
    requires Full(Beside(n, k)) && Ledgers(n) && CanMove(n, m) && ObedientMove(n, m)
    ensures Ledgers(Moved(n, m))
  {
    var t := Beside(n, k);
    assert RecutSafe(t) == RecutSafe(n) && RecutSafe(Swap(t)) == RecutSafe(Swap(n));
    hide RecutSafe, Inv, Ledger, Do, Can;
    LedgerMove(t, m);
  }

  lemma ShutMine(n: Net, a: Act, k: nat)
    requires Shut(n, k) && CanAct(n, a) && Obedient(n, a) && Shape(n.me)
    ensures Shut(Played(n, a), k)
  {
    if n.me.state.CONNECTED? && Do(n.me, a).st.state.CONNECTED? {
      hide RecutSafe, Shut, Shape, Do, Can, Played;
      ShutMineOn(n, a, k);
    } else {
      hide RecutSafe, Shut, Shape, Do, Can, Played;
      ShutMineTurn(n, a, k);
    }
  }

  lemma ShutMineOn(n: Net, a: Act, k: nat)
    requires Shut(n, k) && CanAct(n, a) && Obedient(n, a) && Shape(n.me)
    requires n.me.state.CONNECTED? && Do(n.me, a).st.state.CONNECTED?
    ensures Shut(Played(n, a), k)
  {
    var s := n.me;
    hide RecutSafe;
    StaysIn(s, a);
    StaysTasks(s, a);
    KeysCalls(s, a);
    CallStays(s, a);
    Stays(s, a);
    FaithGrows(n, Do(s, a).st);
    hide Do, Can, Shape, Faithful;
  }

  lemma ShutMineTurn(n: Net, a: Act, k: nat)
    requires Shut(n, k) && CanAct(n, a) && Obedient(n, a) && Shape(n.me)
    requires !n.me.state.CONNECTED? || !Do(n.me, a).st.state.CONNECTED?
    ensures Shut(Played(n, a), k)
  {
    var s := n.me;
    hide RecutSafe;
    WaitsStay(s, a);
    KeysCalls(s, a);
    CallStays(s, a);
    if Do(s, a).st.state.CONNECTED? { Begins(s, a); }
    hide Do, Can, Shape, Faithful;
  }

  lemma CallStays(s: Station, a: Act)
    requires Can(s, a)
    ensures Do(s, a).st.call == s.call
  {
    if a.Hear? {
      HearingCallStays(s, a.frame);
      hide React;
    } else {
      hide Registry.Resolve, Registry.Step, CutAt, Remembered, React;
    }
  }

  lemma HearingCallStays(s: Station, f: Frame)
    requires Hearing(s)
    ensures React(s, f).st.call == s.call
  {
    hide Registry.Resolve, Answer, Registry.Supports, Registry.Index;
  }

  lemma FaithGrows(n: Net, t: Station)
    requires n.me.state.CONNECTED? && t.state.CONNECTED? && n.me.given <= t.given
    ensures Faithful(n) ==> forall n': Net :: n'.me == t && n'.you == n.you ==> Faithful(n')
  {
    var more := t.given[|n.me.given|..];
    assert t.given == n.me.given + more;
    FlatPrefix(n.me.given, more);
  }

  lemma ShutYours(n: Net, a: Act, k: nat)
    requires Shut(n, k) && CanAct(Swap(n), a) && Obedient(Swap(n), a) && Shape(n.you)
    ensures Shut(Moved(n, Yours(a)), k)
  {
    if n.you.state.CONNECTED? && Do(n.you, a).st.state.CONNECTED? {
      hide RecutSafe, Shut, Shape, Do, Can, Moved;
      ShutYoursOn(n, a, k);
    } else {
      hide RecutSafe, Shut, Shape, Do, Can, Moved;
      ShutYoursTurn(n, a, k);
    }
  }

  lemma ShutYoursOn(n: Net, a: Act, k: nat)
    requires Shut(n, k) && CanAct(Swap(n), a) && Obedient(Swap(n), a) && Shape(n.you)
    requires n.you.state.CONNECTED? && Do(n.you, a).st.state.CONNECTED?
    ensures Shut(Moved(n, Yours(a)), k)
  {
    var s := n.you;
    StaysIn(s, a);
    Stays(s, a);
    KeysCalls(s, a);
    CallStays(s, a);
    StaysTasks(s, a);
    hide RecutSafe, Do, Can, Shape, Faithful, Partial;
    if s.task.Failed? || s.task.Leaving? {
      StuckStays(s, a);
      FaithStays(n, Do(s, a).st);
    }
  }

  lemma StaysTasks(s: Station, a: Act)
    requires Shape(s) && s.state.CONNECTED? && Can(s, a) && Do(s, a).st.state.CONNECTED?
    ensures !Do(s, a).st.task.Answering?
  {
    WaitsStay(s, a);
    Stays(s, a);
    hide Do, Can;
  }

  lemma ShutYoursTurn(n: Net, a: Act, k: nat)
    requires Shut(n, k) && CanAct(Swap(n), a) && Obedient(Swap(n), a) && Shape(n.you)
    requires !n.you.state.CONNECTED? || !Do(n.you, a).st.state.CONNECTED?
    ensures Shut(Moved(n, Yours(a)), k)
  {
    var s := n.you;
    hide RecutSafe;
    WaitsStay(s, a);
    KeysCalls(s, a);
    CallStays(s, a);
    if Do(s, a).st.state.CONNECTED? { Begins(s, a); }
    hide Do, Can, Shape, Faithful;
  }

  lemma FaithStays(n: Net, t: Station)
    requires n.you.state.CONNECTED? && t.heard == n.you.heard && Partial(t) == Partial(n.you)
    ensures Faithful(n) ==> forall n': Net :: n'.me == n.me && n'.you == t ==> Faithful(n')
  {
  }

  /** A station that can only leave receives nothing more. */
  lemma StuckStays(s: Station, a: Act)
    requires Can(s, a) && !a.Resume? && (s.task.Failed? || s.task.Leaving?) && Do(s, a).st.state.CONNECTED?
    ensures var t := Do(s, a).st; (t.task.Failed? || t.task.Leaving?) && t.heard == s.heard && Partial(t) == Partial(s)
  {
  }

  lemma ShutLoss(n: Net, m: Move, k: nat)
    requires Shut(n, k) && CanMove(n, m) && (m.LoseOut? || m.LoseInc?)
    ensures Shut(Moved(n, m), k)
  {
  }
}
