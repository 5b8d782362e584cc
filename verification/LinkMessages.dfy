/**
 Messages as the application sees them: what one station's chunk lists say about the
 messages it was given to send and those it delivered.
 */
module LinkMessages {
  import opened Common
  import opened LinkStation
  import opened LinkNet
  import opened LinkSession

  /** The bytes of a list of chunks, and of a list of messages. */
  function ChunkBytes(cs: seq<Chunk>): Bytes {
    if cs == [] then [] else ChunkBytes(cs[..|cs| - 1]) + cs[|cs| - 1].bytes
  }

  function Flat(ms: seq<Bytes>): Bytes {
    if ms == [] then [] else Flat(ms[..|ms| - 1]) + ms[|ms| - 1]
  }

  lemma {:induction false} Reassembled(cs: seq<Chunk>)
    ensures Flat(Messages(cs)) + Tail(cs) == ChunkBytes(cs)
  {
    if cs != [] {
      var init, c := cs[..|cs| - 1], cs[|cs| - 1];
      Reassembled(init);
      assert init + [c] == cs;
      hide Flat, Messages, Tail, ChunkBytes;
      OneReassembled(init, c);
    }
  }

  lemma OneReassembled(cs: seq<Chunk>, c: Chunk)
    requires Flat(Messages(cs)) + Tail(cs) == ChunkBytes(cs)
    ensures Flat(Messages(cs + [c])) + Tail(cs + [c]) == ChunkBytes(cs + [c])
  {
    var f, t := Flat(Messages(cs)), Tail(cs);
    hide Flat, Messages, Tail, ChunkBytes;
    OneMore(cs, c);
    FlatMore(Messages(cs), t + c.bytes);
    ChunkBytesMore(cs, c);
    Regroup(f, t, c.bytes);
  }

  lemma Regroup(f: Bytes, t: Bytes, b: Bytes)
    ensures f + (t + b) + [] == (f + t) + b == f + (t + b)
  {
  }

  lemma OneMore(cs: seq<Chunk>, c: Chunk)
    ensures Messages(cs + [c]) == if c.eof then Messages(cs) + [Tail(cs) + c.bytes] else Messages(cs)
    ensures Tail(cs + [c]) == if c.eof then [] else Tail(cs) + c.bytes
  {
    assert (cs + [c])[..|cs|] == cs;
  }

  function Partial(s: Station): Bytes {
    if s.partial.Some? then s.partial.value else []
  }

  /** Every chunk cut so far, the one in hand included. */
  function Cuts(s: Station): seq<Chunk> {
    s.acked + (if s.hand.Some? then [s.hand.value] else [])
  }

  /** What has been cut is the beginning of what was given to send. */
  ghost predicate WithinGiven(cs: seq<Chunk>, given: seq<Bytes>) {
    Messages(cs) <= given && ChunkBytes(cs) <= Flat(given)
  }

  /** The station's logs and buffers tell the same story. */
  ghost predicate Ledger(s: Station) {
    && s.heard == Messages(s.taken) && Partial(s) == Tail(s.taken)
    && (s.hand.Some? ==> s.task.Sending? || s.task.Failed? || s.task.Leaving?)
    && WithinGiven(s.acked, s.given) && s.sent <= Messages(s.acked)
    && (s.task.Failed? || s.task.Leaving? ==> WithinGiven(Cuts(s), s.given))
    && (s.task.Resting? || s.task.Receiving? ==> s.given == s.sent)
    && (s.task.Resting? || s.task.Receiving? || s.task.Asking? ==>
          Messages(s.acked) == s.sent && Tail(s.acked) == [])
    && (s.task.Asking? ==> s.given == s.sent + [s.task.message])
    && (s.task.Sending? ==>
          var data, at := s.task.data, s.task.offset;
          && at <= |data| && s.given == s.sent + [data]
          && (s.task.finished ==>
                s.hand.None? && at == |data| && Messages(s.acked) == s.sent + [data] && Tail(s.acked) == [])
          && (!s.task.finished ==>
                && Messages(s.acked) == s.sent && Tail(s.acked) == data[..at]
                && (s.hand.Some? ==>
                      var c := s.hand.value;
                      at + |c.bytes| <= |data| && c.bytes == data[at..at + |c.bytes|]
                      && (c.eof <==> at + |c.bytes| == |data|))))
  }

  lemma FlatMore(ms: seq<Bytes>, m: Bytes)
    ensures Flat(ms + [m]) == Flat(ms) + m
  {
    assert (ms + [m])[..|ms|] == ms;
  }

  lemma ChunkBytesMore(cs: seq<Chunk>, c: Chunk)
    ensures ChunkBytes(cs + [c]) == ChunkBytes(cs) + c.bytes
  {
    assert (cs + [c])[..|cs|] == cs;
  }

  lemma Continues(cs: seq<Chunk>, c: Chunk, sent: seq<Bytes>, data: Bytes, at: nat)
    requires at + |c.bytes| <= |data| && c.bytes == data[at..at + |c.bytes|]
    requires c.eof <==> at + |c.bytes| == |data|
    requires Messages(cs) == sent && Tail(cs) == data[..at]
    ensures WithinGiven(cs + [c], sent + [data])
  {
    OneMore(cs, c);
    Reassembled(cs);
    FlatMore(sent, data);
    ChunkBytesMore(cs, c);
    hide Messages, Tail, Flat, ChunkBytes;
    assert data[..at] + c.bytes == data[..at + |c.bytes|];
    assert data[..|data|] == data;
    assert Flat(sent) + data[..at] + c.bytes == Flat(sent) + data[..at + |c.bytes|];
  }

  /** The chunk in hand continues the message being sent. */
  lemma CutsWithin(s: Station)
    requires Ledger(s) && s.task.Sending?
    ensures WithinGiven(Cuts(s), s.given)
  {
    if s.hand.Some? {
      Continues(s.acked, s.hand.value, s.sent, s.task.data, s.task.offset);
    } else {
      assert Cuts(s) == s.acked;
    }
  }

  lemma SentWithin(s: Station)
    requires Ledger(s)
    ensures s.sent <= Messages(s.acked)
  {
  }

  lemma GivenMore(cs: seq<Chunk>, given: seq<Bytes>, data: Bytes)
    requires WithinGiven(cs, given)
    ensures WithinGiven(cs, given + [data])
  {
    assert (given + [data])[..|given|] == given;
  }

  lemma LedgerAct(s: Station, a: Act)
    requires Can(s, a) && !a.Hear? && !a.Resume? && Shape(s) && (s.state.CONNECTED? ==> Ledger(s))
    ensures Do(s, a).st.state.CONNECTED? ==> Ledger(Do(s, a).st)
  {
    if s.state.CONNECTED? {
      if s.task.Sending? { LedgerSending(s, a); } else { LedgerBetween(s, a); }
    }
  }

  lemma LedgerSending(s: Station, a: Act)
    requires Can(s, a) && !a.Hear? && Shape(s) && Ledger(s) && s.task.Sending?
    ensures Do(s, a).st.state.CONNECTED? ==> Ledger(Do(s, a).st)
  {
    hide Messages, Tail, Flat, ChunkBytes, WithinGiven;
    if a.GiveUpSend? { CutsWithin(s); }
  }

  lemma LedgerBetween(s: Station, a: Act)
    requires Can(s, a) && !a.Hear? && !a.Resume? && Shape(s) && Ledger(s) && !s.task.Sending?
    ensures Do(s, a).st.state.CONNECTED? ==> Ledger(Do(s, a).st)
  {
    hide Messages, Tail, Flat, ChunkBytes, WithinGiven;
    if a.StartSend? { GivenMore(s.acked, s.given, a.data); }
    if s.hand.None? { assert Cuts(s) == s.acked; }
  }

  lemma LedgerHear(s: Station, f: Frame)
    requires Hearing(s) && Shape(s) && (s.state.CONNECTED? ==> Ledger(s))
    ensures React(s, f).st.state.CONNECTED? ==> Ledger(React(s, f).st)
  {
    assert s.task.Sending? || s.task.Receiving? || s.task.Asking? ==> s.state.CONNECTED?;
    if !s.state.CONNECTED? {
      LedgerBegins(s, f);
    } else if s.task.Sending? && Confirms(s, f) {
      hide React, Ledger, Shape;
      LedgerConfirmed(s, f);
    } else if f.Data? && (s.task.Receiving? || s.task.Asking?) {
      hide React, Ledger, Shape;
      LedgerTook(s, f);
    } else {
      hide React, Ledger, Shape;
      LedgerOther(s, f);
    }
  }

  lemma LedgerConfirmed(s: Station, f: Frame)
    requires s.task.Sending? && s.hand.Some? && s.state.CONNECTED? && Confirms(s, f) && Ledger(s)
    ensures Ledger(React(s, f).st)
  {
    hide Ledger, TakeAck;
    LedgerAck(s);
  }

  lemma LedgerTook(s: Station, f: Frame)
    requires f.Data? && (s.task.Receiving? || s.task.Asking?) && s.state.CONNECTED? && Ledger(s)
    ensures Ledger(React(s, f).st)
  {
    LedgerData(s, f);
    TookFacts(s, f);
    hide React, HandleData, Messages, Tail, Flat, ChunkBytes, WithinGiven, Partial;
  }

  lemma TookFacts(s: Station, f: Frame)
    requires f.Data? && (s.task.Receiving? || s.task.Asking?) && s.state.CONNECTED?
    ensures var t, d := React(s, f).st, HandleData(s, f).st;
      && t.heard == d.heard && t.taken == d.taken && t.partial == d.partial
      && t.hand == s.hand && t.acked == s.acked && t.given == s.given && t.sent == s.sent
      && (t.task == s.task || (s.task.Receiving? && t.task.Resting?))
  {
    hide Registry.Resolve;
  }

  /** Neither an expected ACK nor DATA: no log changes. */
  lemma LedgerOther(s: Station, f: Frame)
    requires Hearing(s) && Shape(s) && s.state.CONNECTED? && Ledger(s)
    requires !(s.task.Sending? && Confirms(s, f)) && !(f.Data? && (s.task.Receiving? || s.task.Asking?))
    ensures React(s, f).st.state.CONNECTED? ==> Ledger(React(s, f).st)
  {
    hide Messages, Tail, Flat, ChunkBytes, WithinGiven, HandleData;
  }

  lemma LedgerBegins(s: Station, f: Frame)
    requires Hearing(s) && Shape(s) && !s.state.CONNECTED?
    ensures React(s, f).st.state.CONNECTED? ==> Ledger(React(s, f).st)
  {
  }

  lemma LedgerAck(s: Station)
    requires s.task.Sending? && s.hand.Some? && Ledger(s)
    ensures Ledger(TakeAck(s))
  {
    var c, data, at := s.hand.value, s.task.data, s.task.offset;
    CutsWithin(s);
    assert Cuts(s) == s.acked + [c];
    AckedMore(s.acked, c, data, at);
    hide Messages, Tail, Flat, ChunkBytes, WithinGiven, Cuts, RememberMode;
  }

  /** An acknowledged chunk completes the message, or adds its bytes to the part of it acknowledged. */
  lemma AckedMore(acked: seq<Chunk>, c: Chunk, data: Bytes, at: nat)
    requires at + |c.bytes| <= |data| && c.bytes == data[at..at + |c.bytes|] && Tail(acked) == data[..at]
    requires c.eof <==> at + |c.bytes| == |data|
    ensures c.eof ==> Messages(acked + [c]) == Messages(acked) + [data] && Tail(acked + [c]) == []
    ensures !c.eof ==> Messages(acked + [c]) == Messages(acked) && Tail(acked + [c]) == data[..at + |c.bytes|]
  {
    OneMore(acked, c);
    hide Messages, Tail;
    assert data[..at] + c.bytes == data[..at + |c.bytes|];
    assert data[..|data|] == data;
  }

  lemma LedgerData(s: Station, f: Frame)
    requires f.Data? && (s.task.Receiving? || s.task.Asking?) && Ledger(s)
    ensures var d := HandleData(s, f).st;
      d.heard == Messages(d.taken) && Partial(d) == Tail(d.taken)
  {
    OneMore(s.taken, Chunk(f.chunk, f.eof));
  }

  ghost predicate Ledgers(n: Net) {
    (n.me.state.CONNECTED? ==> Ledger(n.me)) && (n.you.state.CONNECTED? ==> Ledger(n.you))
  }

  lemma LedgerDo(s: Station, a: Act)
    requires Can(s, a) && !a.Resume? && Shape(s) && (s.state.CONNECTED? ==> Ledger(s))
    ensures Do(s, a).st.state.CONNECTED? ==> Ledger(Do(s, a).st)
  {
    hide Shape, Ledger, React;
    if a.Hear? { LedgerHear(s, a.frame); } else { LedgerAct(s, a); }
  }

  lemma LedgerMove(n: Net, m: Move)
    requires Inv(n) && Ledgers(n) && CanMove(n, m)
    requires m != Mine(Resume) && m != Yours(Resume)
    ensures Ledgers(Moved(n, m))
  {
    assert Shape(n.me) && Shape(n.you);
    hide Inv, Ledger, Do, Can, Shape;
    if m.Mine? { LedgerDo(n.me, m.act); }
    if m.Yours? { LedgerDo(n.you, m.act); }
  }
}
