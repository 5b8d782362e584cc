/**
 What the link is for, as runs: any two stations with one control mode can connect, pass any message one way
 and, the floor asked for and granted, any other the other way, and part; and a CONNECT_ACK or a DATA_ACK that
 is lost on the way costs a retry and nothing else.
 */
module LinkDelivers {
  import opened Common
  import opened LinkStation
  import opened LinkNet
  import opened LinkActs
  import opened LinkTerms

  // -- runs, move by move ------------------------------------------------------------------

  lemma {:induction false} Then(n0: Net, moves: seq<Move>, n: Net, m: Move, next: Net)
    requires Reaches(n0, moves, n) && CanMove(n, m) && next == Moved(n, m)
    ensures Reaches(n0, moves + [m], next)
    decreases |moves|
  {
    hide CanMove, Moved;
    if moves == [] {
      assert [] + [m] == [m] && [m][1..] == [] && Reaches(next, [], next);
    } else {
      Then(Moved(n0, moves[0]), moves[1..], n, m, next);
      assert (moves + [m])[1..] == moves[1..] + [m];
    }
  }

  /** The same move, seen from the other end. */
  function Mirrored(m: Move): Move {
    match m
    case Mine(a) => Yours(a)
    case Yours(a) => Mine(a)
    case LoseOut(k) => LoseInc(k)
    case LoseInc(k) => LoseOut(k)
  }

  function Mirror(moves: seq<Move>): (there: seq<Move>)
    ensures |there| == |moves| && forall i :: 0 <= i < |moves| ==> there[i] == Mirrored(moves[i])
  {
    seq(|moves|, i requires 0 <= i < |moves| => Mirrored(moves[i]))
  }

  lemma {:induction false} OtherWay(n0: Net, moves: seq<Move>, n: Net)
    requires Reaches(n0, moves, n)
    ensures Reaches(Swap(n0), Mirror(moves), Swap(n))
    decreases |moves|
  {
    if moves != [] {
      MoveOtherWay(n0, moves[0]);
      hide CanMove, Moved;
      OtherWay(Moved(n0, moves[0]), moves[1..], n);
      assert Mirror(moves)[1..] == Mirror(moves[1..]);
    }
  }

  lemma MoveOtherWay(n: Net, m: Move)
    requires CanMove(n, m)
    ensures CanMove(Swap(n), Mirrored(m)) && Moved(Swap(n), Mirrored(m)) == Swap(Moved(n, m))
  {
    hide Played, CanAct;
  }

  // -- frames passed -------------------------------------------------------------------------

  /** One session at both ends, nothing on its way, and every chunk accepted acknowledged. */
  ghost predicate Paired(n: Net) {
    && n.out == [] && n.inc == [] && n.me.state.CONNECTED? && n.you.state.CONNECTED? && n.me.sid == n.you.sid
    && n.me.reg.Valid() && n.me.tx in n.me.reg.modes && n.you.reg.Supports(n.me.tx.id)
    && n.me.txSeq == n.you.rxExpect < SEQ_MODULO
  }

  /** A station keys a frame and is where it was. */
  lemma Keys(n: Net, a: Act, f: Frame)
    requires n.out == [] && Can(n.me, a) && Do(n.me, a) == Deed(n.me, Some(f)) && !a.Hear? && !a.Call? && !a.Listen?
    requires !a.Recut?
    ensures CanMove(n, Mine(a)) && Moved(n, Mine(a)) == n.(out := Sent(n.me, Some(f)))
  {
    hide Do, Can, RecutSafe;
  }

  /** A station does something that keys nothing. */
  lemma Turns(n: Net, a: Act, t: Station)
    requires Can(n.me, a) && Do(n.me, a) == Deed(t, None) && !a.Hear? && !a.Call? && !a.Listen? && !a.Recut?
    ensures CanMove(n, Mine(a)) && Moved(n, Mine(a)) == n.(me := t)
  {
    hide Do, Can, RecutSafe;
    assert n.out + [] == n.out;
  }

  lemma YouTurn(n: Net, a: Act, t: Station)
    requires Can(n.you, a) && Do(n.you, a) == Deed(t, None) && !a.Hear? && !a.Call? && !a.Listen? && !a.Recut?
    ensures CanMove(n, Yours(a)) && Moved(n, Yours(a)) == n.(you := t)
  {
    Turns(Swap(n), a, t);
    hide Played, CanAct;
  }

  /** The peer takes the one frame that is on its way to it, and answers it. */
  lemma YouHear(n: Net, f: Frame, t: Station, g: Option<Frame>)
    requires |n.out| == 1 && n.out[0].frame == f && n.inc == [] && Can(n.you, Hear(f))
    requires Do(n.you, Hear(f)) == Deed(t, g)
    ensures CanMove(n, Yours(Hear(f))) && Moved(n, Yours(Hear(f))) == n.(you := t, out := [], inc := Sent(n.you, g))
  {
    hide Do, Can, RecutSafe;
    assert [] + Sent(n.you, g) == Sent(n.you, g);
  }

  lemma IHear(n: Net, f: Frame, t: Station)
    requires |n.inc| == 1 && n.inc[0].frame == f && Can(n.me, Hear(f)) && Do(n.me, Hear(f)) == Deed(t, None)
    ensures CanMove(n, Mine(Hear(f))) && Moved(n, Mine(Hear(f))) == n.(me := t, inc := [])
  {
    hide Do, Can, RecutSafe;
    assert n.out + [] == n.out;
  }

  // -- a message --------------------------------------------------------------------------

  /** The frame of the chunk in hand, and the ACK it is to bring. */
  function DataOf(s: Station): (f: Frame)
    requires s.hand.Some?
    ensures f.Data?
  {
    Data(s.txSeq, s.hand.value.eof, s.hand.value.bytes, s.tx.id)
  }

  function AckOf(s: Station): Frame {
    DataAck(s.txSeq, (s.txSeq + 1) % SEQ_MODULO, s.tx.id)
  }

  /** The receiver with the chunk taken in. */
  function Having(y: Station, f: Frame): Station
    requires f.Data?
  {
    var t := HandleData(y, f).st;
    if Completed(y, f).Some? then t.(task := Task.Resting) else t
  }

  lemma Exchanged(n: Net)
    requires Paired(n) && n.me.task.Sending? && n.me.hand.Some? && |n.me.hand.value.bytes| <= n.me.tx.chunkSize
    requires n.you.task.Receiving?
    ensures var f, ack := DataOf(n.me), AckOf(n.me);
      && Can(n.me, Key) && Do(n.me, Key) == Deed(n.me, Some(f))
      && Can(n.you, Hear(f)) && Do(n.you, Hear(f)) == Deed(Having(n.you, f), Some(ack))
      && Can(n.me, Hear(ack)) && Do(n.me, Hear(ack)) == Deed(TakeAck(n.me), None)
      && Sent(n.me, Some(f)) == [Flight(f, n.me.sid)] && Sent(n.you, Some(ack)) == [Flight(ack, n.me.sid)]
  {
    var f := DataOf(n.me);
    SendingActs(n.me, AckOf(n.me));
    ReceivingHears(n.you, f);
    Acknowledges(n.you, f);
    hide Do, Can, HandleData, Completed;
  }

  lemma Acknowledges(y: Station, f: Frame)
    requires f.Data? && f.seqNo == y.rxExpect < SEQ_MODULO && y.reg.Supports(f.mode)
    ensures HandleData(y, f).out == Some(DataAck(f.seqNo, (f.seqNo + 1) % SEQ_MODULO, f.mode))
    ensures SeqAhead((f.seqNo + 1) % SEQ_MODULO, f.seqNo) == 1
  {
    OneAhead(f.seqNo);
    hide SeqAhead, Registry.Supports, Registry.Index;
  }

  lemma OneAhead(n: nat)
    requires n < SEQ_MODULO
    ensures SeqAhead((n + 1) % SEQ_MODULO, n) == 1
  {
    if n + 1 == SEQ_MODULO { assert (n + 1) % SEQ_MODULO == 0; } else { assert (n + 1) % SEQ_MODULO == n + 1; }
  }

  /** A chunk keyed, heard and acknowledged. */
  lemma ChunkGoes(n0: Net, moves: seq<Move>, n: Net) returns (more: seq<Move>, next: Net)
    requires Reaches(n0, moves, n) && Paired(n) && n.you.task.Receiving?
    requires n.me.task.Sending? && n.me.hand.Some? && |n.me.hand.value.bytes| <= n.me.tx.chunkSize
    ensures Reaches(n0, more, next) && next == n.(me := TakeAck(n.me), you := Having(n.you, DataOf(n.me)))
  {
    Exchanged(n);
    var f, ack := DataOf(n.me), AckOf(n.me);
    var n1 := n.(out := [Flight(f, n.me.sid)]);
    var n2 := n.(you := Having(n.you, f), inc := [Flight(ack, n.me.sid)]);
    next := n.(me := TakeAck(n.me), you := Having(n.you, f));
    Keys(n, Key, f);
    YouHear(n1, f, Having(n.you, f), Some(ack));
    IHear(n2, ack, TakeAck(n.me));
    hide *;
    Then(n0, moves, n, Mine(Key), n1);
    Then(n0, moves + [Mine(Key)], n1, Yours(Hear(f)), n2);
    Then(n0, moves + [Mine(Key)] + [Yours(Hear(f))], n2, Mine(Hear(ack)), next);
    more := moves + [Mine(Key)] + [Yours(Hear(f))] + [Mine(Hear(ack))];
  }

  /** The chunk has been taken in, and its ACK is lost. */
  lemma AckLost(n0: Net, moves: seq<Move>, n: Net) returns (more: seq<Move>)
    requires Reaches(n0, moves, n) && Paired(n) && n.you.task.Receiving?
    requires n.me.task.Sending? && n.me.hand.Some? && |n.me.hand.value.bytes| <= n.me.tx.chunkSize
    ensures Reaches(n0, more, n.(you := Having(n.you, DataOf(n.me))))
  {
    Exchanged(n);
    var f, ack := DataOf(n.me), AckOf(n.me);
    var y := Having(n.you, f);
    var n1, n2 := n.(out := [Flight(f, n.me.sid)]), n.(you := y, inc := [Flight(ack, n.me.sid)]);
    Keys(n, Key, f);
    YouHear(n1, f, y, Some(ack));
    assert CanMove(n2, LoseInc(0)) && Moved(n2, LoseInc(0)) == n.(you := y);
    hide *;
    Then(n0, moves, n, Mine(Key), n1);
    Then(n0, moves + [Mine(Key)], n1, Yours(Hear(f)), n2);
    more := moves + [Mine(Key)] + [Yours(Hear(f))] + [LoseInc(0)];
    Then(n0, moves + [Mine(Key)] + [Yours(Hear(f))], n2, LoseInc(0), n.(you := y));
  }

  /** It is keyed again, and acknowledged again. */
  lemma KeyedAgain(n0: Net, moves: seq<Move>, n: Net, y: Station) returns (more: seq<Move>)
    requires Paired(n) && n.me.task.Sending? && n.me.hand.Some? && |n.me.hand.value.bytes| <= n.me.tx.chunkSize
    requires n.you.task.Receiving? && Reaches(n0, moves, n.(you := y)) && y.sid == n.you.sid
    requires Can(y, Hear(DataOf(n.me))) && Do(y, Hear(DataOf(n.me))) == Deed(y, Some(AckOf(n.me)))
    ensures Reaches(n0, more, n.(me := TakeAck(n.me), you := y))
  {
    Exchanged(n);
    var f, ack, m := DataOf(n.me), AckOf(n.me), n.(you := y);
    var m1, m2 := m.(out := [Flight(f, n.me.sid)]), m.(inc := [Flight(ack, n.me.sid)]);
    Keys(m, Key, f);
    YouHear(m1, f, y, Some(ack));
    IHear(m2, ack, TakeAck(n.me));
    hide *;
    Then(n0, moves, m, Mine(Key), m1);
    Then(n0, moves + [Mine(Key)], m1, Yours(Hear(f)), m2);
    more := moves + [Mine(Key)] + [Yours(Hear(f))] + [Mine(Hear(ack))];
    Then(n0, moves + [Mine(Key)] + [Yours(Hear(f))], m2, Mine(Hear(ack)), n.(me := TakeAck(n.me), you := y));
  }

  lemma AgainFacts(n: Net)
    requires Paired(n) && n.you.task.Receiving? && n.you.pending == [] && n.me.task.Sending? && n.me.hand.Some?
    ensures var f, y := DataOf(n.me), Having(n.you, DataOf(n.me));
      var y' := y.(task := Task.Receiving);
      && (y.task.Resting? ==> Can(y, StartRecv) && Do(y, StartRecv) == Deed(y', None))
      && (!y.task.Resting? ==> y == y') && y'.sid == n.you.sid
      && Can(y', Hear(f)) && Do(y', Hear(f)) == Deed(y', Some(AckOf(n.me)))
  {
    HearsAgain(n.you, DataOf(n.me));
    StaysOrRests(n.you, DataOf(n.me));
    hide Having, Do, Can;
  }

  /** Its ACK lost, the same chunk is keyed again, and acknowledged without being taken in again. */
  lemma ChunkGoesAgain(n0: Net, moves: seq<Move>, n: Net) returns (more: seq<Move>, next: Net)
    requires Reaches(n0, moves, n) && Paired(n) && n.you.task.Receiving? && n.you.pending == []
    requires n.me.task.Sending? && n.me.hand.Some? && |n.me.hand.value.bytes| <= n.me.tx.chunkSize
    ensures Reaches(n0, more, next)
    ensures next == n.(me := TakeAck(n.me), you := Having(n.you, DataOf(n.me)).(task := Task.Receiving))
  {
    hide *;
    var y := Having(n.you, DataOf(n.me));
    var y' := y.(task := Task.Receiving);
    AgainFacts(n);
    next := n.(me := TakeAck(n.me), you := y');
    more := AckLost(n0, moves, n);
    if y.task.Resting? {
      YouTurn(n.(you := y), StartRecv, y');
      Then(n0, more, n.(you := y), Yours(StartRecv), n.(you := y'));
      more := more + [Yours(StartRecv)];
    }
    more := KeyedAgain(n0, more, n, y');
  }

  lemma StaysOrRests(y: Station, f: Frame)
    requires f.Data? && y.task.Receiving?
    ensures !Having(y, f).task.Resting? ==> Having(y, f) == Having(y, f).(task := Task.Receiving)
  {
    DataFields(y, f);
    hide HandleData;
  }

  /** What has been taken in once is acknowledged the same the second time, and nothing else happens. */
  lemma HearsAgain(y: Station, f: Frame)
    requires f.Data? && y.task.Receiving? && y.state.CONNECTED? && y.pending == []
    requires f.seqNo == y.rxExpect && y.reg.Supports(f.mode) && f.seqNo < SEQ_MODULO
    ensures var t, ack := Having(y, f), DataAck(f.seqNo, (f.seqNo + 1) % SEQ_MODULO, f.mode);
      var t' := t.(task := Task.Receiving);
      && (t.task.Resting? ==> Can(t, StartRecv) && Do(t, StartRecv) == Deed(t', None))
      && t.state == y.state && t.sid == y.sid
      && Can(t', Hear(f)) && Do(t', Hear(f)) == Deed(t', Some(ack))
  {
    var t := Having(y, f);
    var t' := t.(task := Task.Receiving);
    ReceivingHears(t', f);
    Duplicate(y, f);
    hide Do, Can;
    ReceiveActs(t.(task := Task.Resting));
  }

  lemma Duplicate(y: Station, f: Frame)
    requires f.Data? && f.seqNo == y.rxExpect && y.reg.Supports(f.mode) && f.seqNo < SEQ_MODULO && y.task.Receiving?
    ensures var t := Having(y, f);
      && t.state == y.state && t.sid == y.sid && t.pending == y.pending && t.partial.Some?
      && (t.task.Resting? || t.task.Receiving?)
    ensures var t := Having(y, f).(task := Task.Receiving);
      && HandleData(t, f) == Deed(t, Some(DataAck(f.seqNo, (f.seqNo + 1) % SEQ_MODULO, f.mode)))
      && Completed(t, f).None?
  {
    assert (f.seqNo + 1) % SEQ_MODULO != f.seqNo;
  }

  /** A message of which `offset` bytes have got through, its next chunk in hand. */
  ghost predicate Between(n: Net, data: Bytes, offset: nat) {
    && Paired(n) && n.me.task == Sending(data, offset, false) && offset <= |data|
    && n.me.hand == Some(CutAt(data, offset, n.me.tx.chunkSize))
    && n.you.task.Receiving? && n.you.partial == Some(data[..offset]) && n.you.pending == []
  }

  /** From `n` to `next` a message has got through. */
  ghost predicate GotThrough(n: Net, next: Net, data: Bytes) {
    && Paired(next) && next.next == n.next
    && next.me == n.me.(txSeq := next.me.txSeq, acked := next.me.acked, lastGood := next.me.lastGood, hand := None,
                        task := Task.Resting, sent := n.me.sent + [data])
    && next.you == n.you.(rx := next.you.rx, rxExpect := next.you.rxExpect, taken := next.you.taken,
                          partial := Some([]), task := Task.Resting, heard := n.you.heard + [data])
  }

  lemma OneChunk(n: Net, data: Bytes, offset: nat)
    requires Between(n, data, offset)
    ensures var c, me, you := n.me.hand.value, TakeAck(n.me), Having(n.you, DataOf(n.me));
      && |c.bytes| <= n.me.tx.chunkSize && (!c.eof ==> |c.bytes| > 0) && offset + |c.bytes| <= |data|
      && c.bytes == data[offset..offset + |c.bytes|] && (c.eof <==> offset + |c.bytes| == |data|)
      && me.task == Sending(data, offset + |c.bytes|, c.eof) && me.hand.None? && me.sent == n.me.sent
      && you.task == (if c.eof then Task.Resting else Task.Receiving) && you.pending == []
      && you.partial == Some(if c.eof then [] else data[..offset + |c.bytes|])
      && you.heard == n.you.heard + (if c.eof then [data] else [])
      && Paired(n.(me := me, you := you))
  {
    RungOf(n.me.reg, n.me.tx);
    var f := DataOf(n.me);
    assert f.seqNo == n.you.rxExpect;
    assert data[..offset] + f.chunk == data[..offset + |f.chunk|];
    assert data[..|data|] == data;
    hide RememberMode, Registry.Index, Registry.IndexFrom;
  }

  lemma LastChunk(n: Net, data: Bytes, offset: nat)
    requires Between(n, data, offset) && n.me.hand.value.eof
    ensures var me, you := TakeAck(n.me), Having(n.you, DataOf(n.me));
      && Can(me, Done) && Do(me, Done) == Deed(me.(sent := me.sent + [data], task := Task.Resting), None)
      && GotThrough(n, n.(me := me.(sent := me.sent + [data], task := Task.Resting), you := you), data)
  {
    OneChunk(n, data, offset);
    BetweenActs(TakeAck(n.me), false);
    DataFields(n.you, DataOf(n.me));
    hide HandleData, RememberMode, CutAt, Registry.Valid, Registry.Supports, Do, Can;
  }

  lemma MoreChunks(n: Net, data: Bytes, offset: nat)
    requires Between(n, data, offset) && !n.me.hand.value.eof
    ensures var c, me, you := n.me.hand.value, TakeAck(n.me), Having(n.you, DataOf(n.me));
      && Can(me, Cut) && Do(me, Cut) == Deed(CutNow(me), None)
      && Between(n.(me := CutNow(me), you := you), data, offset + |c.bytes|)
  {
    OneChunk(n, data, offset);
    CutActs(TakeAck(n.me));
    hide Having, RememberMode, CutAt, Registry.Valid, Registry.Supports, Do, Can;
  }

  lemma OnlyMessage(n: Net, mid: Net, next: Net, data: Bytes)
    requires mid.next == n.next && GotThrough(mid, next, data)
    requires mid.me == n.me.(txSeq := mid.me.txSeq, acked := mid.me.acked, lastGood := mid.me.lastGood,
                             hand := mid.me.hand, task := mid.me.task)
    requires mid.you == n.you.(rx := mid.you.rx, rxExpect := mid.you.rxExpect, taken := mid.you.taken,
                               partial := mid.you.partial, task := mid.you.task)
    ensures GotThrough(n, next, data)
  {
  }

  lemma ChunkFields(n: Net)
    requires n.me.task.Sending? && n.me.hand.Some? && n.you.task.Receiving?
    ensures n.me.task.offset + |n.me.hand.value.bytes| <= |n.me.task.data| ==>
      var me, you := CutNow(TakeAck(n.me)), Having(n.you, DataOf(n.me));
      && me == n.me.(txSeq := me.txSeq, acked := me.acked, lastGood := me.lastGood, hand := me.hand, task := me.task)
      && (!n.me.hand.value.eof ==>
            you == n.you.(rx := you.rx, rxExpect := you.rxExpect, taken := you.taken, partial := you.partial,
                          task := you.task))
  {
    hide RememberMode, CutAt;
  }

  lemma LastDone(n: Net, data: Bytes, offset: nat) returns (next: Net)
    requires Between(n, data, offset) && n.me.hand.value.eof
    ensures var mid := n.(me := TakeAck(n.me), you := Having(n.you, DataOf(n.me)));
      CanMove(mid, Mine(Done)) && next == Moved(mid, Mine(Done)) && GotThrough(n, next, data)
  {
    LastChunk(n, data, offset);
    hide Can, Do, Having, TakeAck, GotThrough;
    var mid := n.(me := TakeAck(n.me), you := Having(n.you, DataOf(n.me)));
    next := mid.(me := mid.me.(sent := mid.me.sent + [data], task := Task.Resting));
    Turns(mid, Done, next.me);
  }

  lemma NextCut(n: Net, data: Bytes, offset: nat) returns (next: Net)
    requires Between(n, data, offset) && !n.me.hand.value.eof
    ensures var mid := n.(me := TakeAck(n.me), you := Having(n.you, DataOf(n.me)));
      CanMove(mid, Mine(Cut)) && next == Moved(mid, Mine(Cut))
    ensures var k := offset + |n.me.hand.value.bytes|; offset < k <= |data| && Between(next, data, k)
    ensures forall last: Net :: GotThrough(next, last, data) ==> GotThrough(n, last, data)
  {
    OneChunk(n, data, offset);
    MoreChunks(n, data, offset);
    ChunkFields(n);
    hide Can, Do, Having, TakeAck, CutNow;
    var mid := n.(me := TakeAck(n.me), you := Having(n.you, DataOf(n.me)));
    next := mid.(me := CutNow(mid.me));
    Turns(mid, Cut, next.me);
    hide Between, CanMove, Moved;
    forall last: Net | GotThrough(next, last, data) ensures GotThrough(n, last, data) {
      OnlyMessage(n, next, last, data);
    }
  }

  lemma Holds(n: Net, data: Bytes, offset: nat)
    requires Between(n, data, offset)
    ensures Paired(n) && n.you.task.Receiving? && n.me.task.Sending? && n.me.hand.Some?
    ensures |n.me.hand.value.bytes| <= n.me.tx.chunkSize && n.you.pending == [] && n.me.state == CONNECTED
  {
  }

  /** Chunk by chunk, to the end. */
  lemma {:induction false} MessageGoes(n0: Net, moves: seq<Move>, n: Net, data: Bytes, offset: nat)
      returns (more: seq<Move>, next: Net)
    requires Reaches(n0, moves, n) && Between(n, data, offset)
    ensures Reaches(n0, more, next) && GotThrough(n, next, data)
    decreases |data| - offset
  {
    hide *;
    Holds(n, data, offset);
    var mid;
    more, mid := ChunkGoes(n0, moves, n);
    if n.me.hand.value.eof {
      next := LastDone(n, data, offset);
      Then(n0, more, mid, Mine(Done), next);
      more := more + [Mine(Done)];
    } else {
      var k := offset + |n.me.hand.value.bytes|;
      var cut := NextCut(n, data, offset);
      Then(n0, more, mid, Mine(Cut), cut);
      more, next := MessageGoes(n0, more + [Mine(Cut)], cut, data, k);
    }
  }

  // -- a message either way ------------------------------------------------------------------

  predicate Empty(partial: Option<Bytes>) {
    partial.None? || partial.value == []
  }

  /** Both ends between calls, each as able to send as the other. */
  ghost predicate Rested(n: Net) {
    && Paired(n) && Paired(Swap(n)) && n.me.task.Resting? && n.you.task.Resting?
    && n.me.pending == [] && n.you.pending == [] && Empty(n.me.partial) && Empty(n.you.partial)
  }

  /** A message has been given, sent and heard; the floor is with its sender. */
  ghost predicate Delivered(n: Net, next: Net, data: Bytes) {
    && Rested(next) && next.next == n.next
    && next.me == n.me.(role := ISS, txSeq := next.me.txSeq, acked := next.me.acked, lastGood := next.me.lastGood,
                        hand := None, task := Task.Resting, given := n.me.given + [data], sent := n.me.sent + [data])
    && next.you == n.you.(role := if n.me.role.ISS? then n.you.role else IRS, rx := next.you.rx,
                          rxExpect := next.you.rxExpect, taken := next.you.taken, partial := Some([]),
                          task := Task.Resting, heard := n.you.heard + [data])
  }

  /** The floor held or granted, the first chunk in hand, the peer receiving. */
  function Begun(n: Net, data: Bytes): Net {
    n.(me := BeginSending(n.me.(given := n.me.given + [data]), data),
       you := n.you.(role := if n.me.role.ISS? then n.you.role else IRS, task := Task.Receiving, partial := Some([])))
  }

  lemma BegunBetween(n: Net, data: Bytes)
    requires Rested(n)
    ensures Between(Begun(n, data), data, 0)
    ensures forall next: Net :: GotThrough(Begun(n, data), next, data) ==> Delivered(n, next, data)
  {
    assert data[..0] == [];
    hide CutAt, Registry.Valid, Registry.Supports;
  }

  lemma HoldsFloor(n0: Net, moves: seq<Move>, n: Net, data: Bytes) returns (more: seq<Move>)
    requires Reaches(n0, moves, n) && Rested(n) && n.me.role.ISS?
    ensures Reaches(n0, more, Begun(n, data))
  {
    hide *;
    HeldActs(n, data);
    var b := Begun(n, data);
    var n1 := n.(me := b.me);
    Turns(n, StartSend(data), b.me);
    YouTurn(n1, StartRecv, b.you);
    BegunIs(n, data);
    Then(n0, moves, n, Mine(StartSend(data)), n1);
    Then(n0, moves + [Mine(StartSend(data))], n1, Yours(StartRecv), b);
    more := moves + [Mine(StartSend(data))] + [Yours(StartRecv)];
  }

  lemma BegunIs(n: Net, data: Bytes)
    ensures var b := Begun(n, data); b == n.(me := b.me, you := b.you)
  {
    hide BeginSending;
  }

  lemma HeldActs(n: Net, data: Bytes)
    requires Rested(n) && n.me.role.ISS?
    ensures var b := Begun(n, data);
      && Can(n.me, StartSend(data)) && Do(n.me, StartSend(data)) == Deed(b.me, None)
      && Can(n.you, StartRecv) && Do(n.you, StartRecv) == Deed(b.you, None)
  {
    ReceiveActs(n.you);
    hide CutAt, Registry.Valid, Registry.Supports;
  }

  /** The floor is asked for and granted. */
  lemma AsksFloor(n0: Net, moves: seq<Move>, n: Net, data: Bytes) returns (more: seq<Move>)
    requires Reaches(n0, moves, n) && Rested(n) && !n.me.role.ISS?
    ensures Reaches(n0, more, Begun(n, data))
  {
    var b := Begun(n, data);
    var asking := n.me.(given := n.me.given + [data], task := Task.Asking(data));
    var hearing := n.you.(task := Task.Receiving, partial := Some([]));
    var n1, n2 := n.(me := asking), n.(me := asking, you := hearing);
    var n3, n4 := n2.(out := [Flight(FloorReq, n.me.sid)]), b.(me := asking, inc := [Flight(FloorGrant, n.me.sid)]);
    FloorActs(n, data);
    hide Do, Can, CutAt, Paired;
    Turns(n, StartSend(data), asking);
    YouTurn(n1, StartRecv, hearing);
    Keys(n2, Ask, FloorReq);
    YouHear(n3, FloorReq, b.you, Some(FloorGrant));
    IHear(n4, FloorGrant, b.me);
    hide *;
    Then(n0, moves, n, Mine(StartSend(data)), n1);
    more := moves + [Mine(StartSend(data))];
    Then(n0, more, n1, Yours(StartRecv), n2);
    more := more + [Yours(StartRecv)];
    Then(n0, more, n2, Mine(Ask), n3);
    more := more + [Mine(Ask)];
    Then(n0, more, n3, Yours(Hear(FloorReq)), n4);
    more := more + [Yours(Hear(FloorReq))];
    Then(n0, more, n4, Mine(Hear(FloorGrant)), b);
    more := more + [Mine(Hear(FloorGrant))];
  }

  lemma FloorActs(n: Net, data: Bytes)
    requires Rested(n) && !n.me.role.ISS?
    ensures var b := Begun(n, data);
      var asking := n.me.(given := n.me.given + [data], task := Task.Asking(data));
      var hearing := n.you.(task := Task.Receiving, partial := Some([]));
      && n.out == [] && n.inc == [] && n.me.sid == n.you.sid
      && Can(n.me, StartSend(data)) && Do(n.me, StartSend(data)) == Deed(asking, None)
      && Can(n.you, StartRecv) && Do(n.you, StartRecv) == Deed(hearing, None)
      && Can(asking, Ask) && Do(asking, Ask) == Deed(asking, Some(FloorReq))
      && Can(hearing, Hear(FloorReq)) && Do(hearing, Hear(FloorReq)) == Deed(b.you, Some(FloorGrant))
      && Can(asking, Hear(FloorGrant)) && Do(asking, Hear(FloorGrant)) == Deed(b.me, None)
  {
    hide CutAt;
    var asking := n.me.(given := n.me.given + [data], task := Task.Asking(data));
    var hearing := n.you.(task := Task.Receiving, partial := Some([]));
    StartActs(n.me, data);
    ReceiveActs(n.you);
    AskingActs(asking, FloorGrant);
    ReceivingHears(hearing, FloorReq);
    SendKeeps(n.me, data);
    hide Do, Can;
  }

  lemma SendKeeps(s: Station, data: Bytes)
    ensures BeginSending(s.(given := s.given + [data], task := Task.Asking(data)), data)
         == BeginSending(s.(given := s.given + [data]), data)
  {
  }

  /** Any message gets through, whoever has the floor. */
  lemma Sends(n0: Net, moves: seq<Move>, n: Net, data: Bytes) returns (more: seq<Move>, next: Net)
    requires Reaches(n0, moves, n) && Rested(n)
    ensures Reaches(n0, more, next) && Delivered(n, next, data)
  {
    hide *;
    BegunBetween(n, data);
    var begun;
    if n.me.role.ISS? { begun := HoldsFloor(n0, moves, n, data); } else { begun := AsksFloor(n0, moves, n, data); }
    more, next := MessageGoes(n0, begun, Begun(n, data), data, 0);
  }

  // -- a session from beginning to end -----------------------------------------------------------

  /** The CONNECT one station keys to another, and the answer to it. */
  function Calling(n: Net, dst: string): Frame {
    CallBody(n.me, dst, n.next)
  }

  function Listening(s: Station): Station {
    s.(state := LISTENING, task := Task.Answering)
  }

  /** The session as the call and its answer make it; `again` if the answer had to be keyed twice. */
  function InSession(n: Net, dst: string, again: bool): Net {
    var c, y := Calling(n, dst), Listening(n.you);
    var answered := Accept(y, c).st;
    n.(me := TakeConnectAck(InCall(n.me, dst, n.next), Answer(y, c)),
       you := if again then answered.(partial := Some([])) else answered,
       out := [], inc := [], next := n.next + 1)
  }

  /** A call is begun, and a call is listened for: each clears the packets its own end has queued. */
  lemma Drains(n: Net, dst: string, t: Station)
    requires Start(n) && Can(n.me, Call(dst, n.next)) && Do(n.me, Call(dst, n.next)) == Deed(t, None)
    requires Can(n.you, Listen) && Do(n.you, Listen) == Deed(Listening(n.you), None)
    ensures var n1 := n.(me := t, next := n.next + 1);
      && CanMove(n, Mine(Call(dst, n.next))) && Moved(n, Mine(Call(dst, n.next))) == n1
      && CanMove(n1, Yours(Listen)) && Moved(n1, Yours(Listen)) == n1.(you := Listening(n.you))
  {
    hide Do, Can, RecutSafe;
  }

  /** The call reaches the listener, and is answered. */
  lemma CallGoes(n: Net, dst: string) returns (moves: seq<Move>)
    requires Start(n) && dst == n.you.call
    ensures var c, y := Calling(n, dst), Listening(n.you);
      Reaches(n, moves, n.(me := InCall(n.me, dst, n.next), you := Accept(y, c).st,
                           inc := [Flight(Answer(y, c), n.next)], next := n.next + 1))
  {
    var c, y, me := Calling(n, dst), Listening(n.you), InCall(n.me, dst, n.next);
    var ack := Answer(y, c);
    var n1 := n.(me := me, next := n.next + 1);
    var n2 := n1.(you := y);
    var n3, n4 := n2.(out := [Flight(c, n.next)]), n2.(you := Accept(y, c).st, inc := [Flight(ack, n.next)]);
    CallActs(n.me, dst, n.next);
    CallingActs(me, ack);
    ListenActs(n.you);
    AnsweringActs(y, c);
    BegunAnswer(y, c);
    hide Do, Can, Accept, Answer, CallBody, CanMove, Moved;
    Drains(n, dst, me);
    Keys(n2, KeyConnect, c);
    YouHear(n3, c, Accept(y, c).st, Some(ack));
    assert Reaches(n, [], n);
    hide *;
    Then(n, [], n, Mine(Call(dst, n.next)), n1);
    moves := [] + [Mine(Call(dst, n.next))];
    Then(n, moves, n1, Yours(Listen), n2);
    moves := moves + [Yours(Listen)];
    Then(n, moves, n2, Mine(KeyConnect), n3);
    moves := moves + [Mine(KeyConnect)];
    Then(n, moves, n3, Yours(Hear(c)), n4);
    moves := moves + [Yours(Hear(c))];
  }

  /** The answer reaches the caller. */
  lemma AnswerTaken(n0: Net, moves: seq<Move>, n: Net, ack: Frame) returns (more: seq<Move>)
    requires Reaches(n0, moves, n) && n.me.task.Calling? && |n.inc| == 1 && n.inc[0].frame == ack
    requires ack.ConnectAck? && ack.dst == n.me.call && ack.sid == n.me.sid
    ensures Reaches(n0, more, n.(me := TakeConnectAck(n.me, ack), inc := []))
  {
    CallingActs(n.me, ack);
    hide Do, Can, TakeConnectAck;
    IHear(n, ack, TakeConnectAck(n.me, ack));
    hide *;
    Then(n0, moves, n, Mine(Hear(ack)), n.(me := TakeConnectAck(n.me, ack), inc := []));
    more := moves + [Mine(Hear(ack))];
  }

  /** The answer is lost; the call is tried again, and the listener, already in the session, answers it again. */
  lemma AnswerRepeated(n0: Net, moves: seq<Move>, n: Net, c: Frame, ack: Frame) returns (more: seq<Move>)
    requires Reaches(n0, moves, n) && n.me.task == Task.Calling(c) && n.out == [] && |n.inc| == 1
    requires c.Connect? && ack.ConnectAck? && n.inc[0] == Flight(ack, c.sid) && n.you.ackBody == Some(ack)
    requires n.you.state.CONNECTED? && n.you.task.Resting? && n.you.pending == [] && n.you.partial.None?
    requires IsDuplicateConnect(n.you, c) && ack.sid == c.sid
    ensures Reaches(n0, more, n.(you := n.you.(partial := Some([]))))
  {
    var hearing := n.you.(task := Task.Receiving, partial := Some([]));
    var rested := n.you.(partial := Some([]));
    var n1, n2 := n.(inc := []), n.(inc := [], out := [Flight(c, c.sid)]);
    var n3 := n2.(you := hearing);
    var n4 := n.(you := hearing);
    CallingActs(n.me, ack);
    ReceiveActs(n.you);
    Unwanted(hearing, c);
    ReceivingHears(hearing, ack);
    assert Sent(hearing, Some(ack)) == [Flight(ack, c.sid)] && Sent(n.me, Some(c)) == [Flight(c, c.sid)];
    assert CanMove(n, LoseInc(0)) && Moved(n, LoseInc(0)) == n1;
    hide Do, Can, CanMove, Moved;
    Keys(n1, KeyConnect, c);
    YouTurn(n2, StartRecv, hearing);
    YouHear(n3, c, hearing, Some(ack));
    YouTurn(n4, StopRecv, rested);
    hide *;
    Then(n0, moves, n, LoseInc(0), n1);
    more := moves + [LoseInc(0)];
    Then(n0, more, n1, Mine(KeyConnect), n2);
    more := more + [Mine(KeyConnect)];
    Then(n0, more, n2, Yours(StartRecv), n3);
    more := more + [Yours(StartRecv)];
    Then(n0, more, n3, Yours(Hear(c)), n4);
    more := more + [Yours(Hear(c))];
    Then(n0, more, n4, Yours(StopRecv), n.(you := rested));
    more := more + [Yours(StopRecv)];
  }

  /** A call to a station that listens connects the two, though the first answer be lost. */
  lemma Connects(n: Net, dst: string, again: bool) returns (moves: seq<Move>)
    requires Start(n) && SameControl(n) && dst == n.you.call
    ensures Reaches(n, moves, InSession(n, dst, again)) && Rested(InSession(n, dst, again))
  {
    var c, y := Calling(n, dst), Listening(n.you);
    var me, ack := InCall(n.me, dst, n.next), Answer(y, c);
    moves := CallGoes(n, dst);
    var mid := n.(me := me, you := Accept(y, c).st, inc := [Flight(ack, n.next)], next := n.next + 1);
    AnswerFacts(n, dst);
    if again {
      hide *;
      moves := AnswerRepeated(n, moves, mid, c, ack);
      moves := AnswerTaken(n, moves, mid.(you := mid.you.(partial := Some([]))), ack);
    } else {
      hide *;
      moves := AnswerTaken(n, moves, mid, ack);
    }
    SessionIs(n, dst, again);
    Settled(n, moves, InSession(n, dst, again));
    SessionRests(n, dst, again);
  }

  lemma AnswerFacts(n: Net, dst: string)
    requires Start(n) && dst == n.you.call
    ensures var c, y, me := Calling(n, dst), Listening(n.you), InCall(n.me, dst, n.next);
      var ack, t := Answer(y, c), Accept(y, c).st;
      && c.Connect? && c.sid == n.next && ack.ConnectAck? && ack.dst == me.call && ack.sid == me.sid == c.sid
      && me.task == Task.Calling(c) && me.sid == n.next && n.out == [] && n.inc == []
      && t.state.CONNECTED? && t.task.Resting? && t.pending == [] && t.partial.None? && t.ackBody == Some(ack)
      && IsDuplicateConnect(t, c)
  {
    hide Registry.Resolve, Registry.Ids, Remembered;
  }

  lemma SessionIs(n: Net, dst: string, again: bool)
    requires Start(n) && dst == n.you.call
    ensures var c, y, me := Calling(n, dst), Listening(n.you), InCall(n.me, dst, n.next);
      var mid := n.(me := me, you := Accept(y, c).st, inc := [Flight(Answer(y, c), n.next)], next := n.next + 1);
      InSession(n, dst, again)
        == (if again then mid.(you := mid.you.(partial := Some([]))) else mid).(me := TakeConnectAck(me, Answer(y, c)),
                                                                                inc := [])
  {
    hide TakeConnectAck, Accept, Answer, InCall;
  }

  /** In every session between stations with one control mode each end's mode is known to the other. */
  lemma Settled(n0: Net, moves: seq<Move>, n: Net)
    requires Start(n0) && SameControl(n0) && Reaches(n0, moves, n)
    ensures n.me.reg.Valid() && n.you.reg.Valid()
    ensures n.me.state.CONNECTED? ==> n.me.tx in n.me.reg.modes && n.you.reg.Supports(n.me.tx.id)
    ensures n.you.state.CONNECTED? ==> n.you.tx in n.you.reg.modes && n.me.reg.Supports(n.you.tx.id)
  {
    TermsStart(n0);
    TermsRun(n0, moves, n);
    TermsKnow(n);
    hide Terms, Reaches;
  }

  lemma SessionRests(n: Net, dst: string, again: bool)
    requires Start(n) && dst == n.you.call
    requires var s := InSession(n, dst, again);
      && s.me.reg.Valid() && s.you.reg.Valid()
      && (s.me.state.CONNECTED? ==> s.me.tx in s.me.reg.modes && s.you.reg.Supports(s.me.tx.id))
      && (s.you.state.CONNECTED? ==> s.you.tx in s.you.reg.modes && s.me.reg.Supports(s.you.tx.id))
    ensures Rested(InSession(n, dst, again))
  {
    hide Registry.Resolve, Registry.Supports, Registry.Valid, Registry.Ids, Remembered;
  }

  /** Both ends have left the session: the DISC was heard and answered. */
  lemma Parts(n0: Net, moves: seq<Move>, n: Net) returns (more: seq<Move>)
    requires Reaches(n0, moves, n) && Rested(n)
    ensures Reaches(n0, more, n.(me := Gone(n.me), you := Gone(n.you.(partial := Some([])))))
  {
    var leaving, hearing := n.me.(task := Task.Leaving), n.you.(task := Task.Receiving, partial := Some([]));
    var gone := Gone(n.you.(partial := Some([])));
    var n1 := n.(me := leaving);
    var n2 := n1.(out := [Flight(Disc, n.me.sid)]);
    var n3, n4 := n2.(you := hearing), n1.(you := gone, inc := [Flight(DiscAck, n.you.sid)]);
    TeardownActs(n.me);
    TeardownActs(leaving);
    ReceiveActs(n.you);
    DiscHeard(hearing);
    GoneAlike(n.you);
    hide Do, Can, Gone, Registry.Valid, Registry.Supports;
    Turns(n, Leave, leaving);
    Keys(n1, KeyDisc, Disc);
    YouTurn(n2, StartRecv, hearing);
    YouHear(n3, Disc, gone, Some(DiscAck));
    IHear(n4, DiscAck, Gone(n.me));
    hide *;
    Then(n0, moves, n, Mine(Leave), n1);
    more := moves + [Mine(Leave)];
    Then(n0, more, n1, Mine(KeyDisc), n2);
    more := more + [Mine(KeyDisc)];
    Then(n0, more, n2, Yours(StartRecv), n3);
    more := more + [Yours(StartRecv)];
    Then(n0, more, n3, Yours(Hear(Disc)), n4);
    more := more + [Yours(Hear(Disc))];
    Then(n0, more, n4, Mine(Hear(DiscAck)), n.(me := Gone(n.me), you := gone));
    more := more + [Mine(Hear(DiscAck))];
  }

  lemma GoneAlike(s: Station)
    ensures Gone(s.(task := Task.Receiving, partial := Some([]))) == Gone(s.(partial := Some([])))
  {
  }

  /**
   A whole session of any two stations with one control mode: connected though the first answer be lost, any
   message one way and any other back, and parted. Just these were given, sent and heard.
   */
  lemma WholeSession(n0: Net, dst: string, there: Bytes, back: Bytes, again: bool) returns (moves: seq<Move>, n: Net)
    requires Start(n0) && SameControl(n0) && dst == n0.you.call
    ensures Reaches(n0, moves, n) && n.me.state == IDLE && n.you.state == IDLE && n.out == [] && n.inc == []
    ensures n.me.sent == [there] && n.you.heard == [there] && n.you.sent == [back] && n.me.heard == [back]
    ensures n.me.given == [there] && n.you.given == [back]
  {
    hide *;
    moves := Connects(n0, dst, again);
    var s := InSession(n0, dst, again);
    NothingYet(n0, dst, again);
    var s1, s2;
    moves, s1 := Sends(n0, moves, s, there);
    DeliveredMeans(s, s1, there);
    OtherWay(n0, moves, s1);
    SwapTwice(s1);
    RestedSwap(s1);
    moves, s2 := Sends(Swap(n0), Mirror(moves), Swap(s1), back);
    DeliveredMeans(Swap(s1), s2, back);
    OtherWay(Swap(n0), moves, s2);
    SwapTwice(n0);
    RestedSwap(s2);
    moves := Parts(n0, Mirror(moves), Swap(s2));
    n := Swap(s2).(me := Gone(Swap(s2).me), you := Gone(Swap(s2).you.(partial := Some([]))));
    SwapTwice(s2);
    PartedMeans(s2, n);
    assert [] + [there] == [there] && [] + [back] == [back];
  }

  lemma SwapTwice(n: Net)
    ensures Swap(Swap(n)) == n && Swap(n).me == n.you && Swap(n).you == n.me
  {
  }

  lemma RestedSwap(n: Net)
    requires Rested(n)
    ensures Rested(Swap(n))
  {
    hide Paired;
    SwapTwice(n);
  }

  lemma NothingYet(n: Net, dst: string, again: bool)
    ensures var s := InSession(n, dst, again);
      && s.me.sent == [] && s.me.given == [] && s.me.heard == []
      && s.you.sent == [] && s.you.given == [] && s.you.heard == []
  {
    hide Registry.Resolve, Answer;
  }

  lemma DeliveredMeans(n: Net, next: Net, data: Bytes)
    requires Delivered(n, next, data)
    ensures Rested(next)
    ensures next.me.sent == n.me.sent + [data] && next.me.given == n.me.given + [data] && next.me.heard == n.me.heard
    ensures next.you.sent == n.you.sent && next.you.given == n.you.given && next.you.heard == n.you.heard + [data]
  {
    hide Rested;
  }

  lemma PartedMeans(s: Net, n: Net)
    requires Rested(s)
    requires n == Swap(s).(me := Gone(Swap(s).me), you := Gone(Swap(s).you.(partial := Some([]))))
    ensures n.me.state == IDLE && n.you.state == IDLE && n.out == [] && n.inc == []
    ensures n.me.sent == s.you.sent && n.me.given == s.you.given && n.me.heard == s.you.heard
    ensures n.you.sent == s.me.sent && n.you.given == s.me.given && n.you.heard == s.me.heard
  {
    hide Registry.Valid, Registry.Supports;
  }
}
