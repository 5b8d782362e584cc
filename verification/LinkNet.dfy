/**
 Two stations and the two packet queues between them.

 A keyed frame is either in the peer's packet queue or lost: queues are FIFO, any
 element of one may vanish at any time, and a frame may wait in its queue as long as
 it likes. connect() and listen_once() drain the caller's own queue, as the source does.

 A net is written from one station's side; `Swap` shows it from the other's.
 */
module LinkNet {
  import opened Common
  import opened LinkStation

  /** A frame waiting in a queue, with the session its sender was in when it keyed it. */
  datatype Flight = Flight(frame: Frame, tag: nat)
  type Queue = seq<Flight>

  /**
   `out` is the peer's packet queue, `inc` this station's own; `next` bounds every id issued. `exact`
   is history: no chunk has been cut again that had been accepted, or could still be, in its old size.
   */
  datatype Net = Net(me: Station, you: Station, out: Queue, inc: Queue, next: nat, exact: bool)

  datatype Move = Mine(act: Act) | Yours(act: Act) | LoseOut(at: nat) | LoseInc(at: nat)

  function Swap(n: Net): Net {
    Net(n.you, n.me, n.inc, n.out, n.next, n.exact)
  }

  function Without(q: Queue, at: nat): (r: Queue)
    requires at < |q|
    ensures |r| == |q| - 1
    ensures forall i :: 0 <= i < |r| ==> r[i] == q[if i < at then i else i + 1]
  {
    q[..at] + q[at + 1..]
  }

  function Sent(s: Station, f: Option<Frame>): (q: Queue)
    ensures |q| <= 1
  {
    if f.None? then []
    else [Flight(f.value, if f.value.Connect? || f.value.ConnectAck? then f.value.sid else s.sid)]
  }

  // A fresh session id is one nobody has issued; ids are only ever compared for equality.
  predicate CanAct(n: Net, a: Act) {
    && Can(n.me, a)
    && (a.Hear? ==> n.inc != [] && n.inc[0].frame == a.frame)
    && (a.Call? ==> n.next <= a.newSid)
  }

  /** A queued DATA frame of session `s` with the number of its k-th chunk. */
  predicate IsData(f: Flight, s: nat, k: int) {
    f.tag == s && f.frame.Data? && f.frame.seqNo == k % SEQ_MODULO
  }

  /** No copy of the chunk in hand has been accepted or is still queued. */
  predicate RecutSafe(n: Net) {
    && (n.you.state.CONNECTED? ==> |n.you.taken| == |n.me.acked|)
    && (forall i :: 0 <= i < |n.out| ==> !IsData(n.out[i], n.me.sid, |n.me.acked|))
  }

  function Played(n: Net, a: Act): Net
    requires CanAct(n, a)
  {
    var d := Do(n.me, a);
    Net(d.st, n.you,
        n.out + Sent(n.me, d.out),
        if a.Hear? then n.inc[1..] else if a.Call? || a.Listen? then [] else n.inc,
        if a.Call? then a.newSid + 1 else n.next,
        n.exact && (a.Recut? ==> RecutSafe(n)))
  }

  /** Hearing takes the packet, does what React says and keys at most one frame. */
  lemma HearPlays(n: Net, f: Frame)
    requires Hearing(n.me) && n.inc != [] && n.inc[0].frame == f
    ensures CanAct(n, Hear(f))
    ensures var d := React(n.me, f);
      Played(n, Hear(f)) == n.(me := d.st, out := n.out + Sent(n.me, d.out), inc := n.inc[1..])
  {
    hide React, RecutSafe;
  }

  predicate CanMove(n: Net, m: Move) {
    match m
    case Mine(a) => CanAct(n, a)
    case Yours(a) => CanAct(Swap(n), a)
    case LoseOut(k) => k < |n.out|
    case LoseInc(k) => k < |n.inc|
  }

  function Moved(n: Net, m: Move): Net
    requires CanMove(n, m)
  {
    match m
    case Mine(a) => Played(n, a)
    case Yours(a) => Swap(Played(Swap(n), a))
    case LoseOut(k) => n.(out := Without(n.out, k))
    case LoseInc(k) => n.(inc := Without(n.inc, k))
  }

  predicate Fresh(s: Station) {
    && s.state.IDLE? && s.role.NoRole? && s.task.Resting? && s.hand.None?
    && s.sid == 0 && s.ackBody.None? && s.peer.None? && s.calls == {}
    && s.partial.None? && s.pending == []
  }

  /** A station as it is constructed, with the modes it remembers from before. */
  function AtPowerUp(call: string, reg: Registry, memory: map<string, nat>): Station {
    Station(call, reg, IDLE, NoRole, None, {}, reg.control, reg.control, 0, 0, None, [], 0, None, memory,
            Resting, None, {}, false, 0, 0, [], [], [], [], [])
  }

  ghost predicate Start(n: Net) {
    && Fresh(n.me) && Fresh(n.you)
    && n.me.reg.Valid() && n.you.reg.Valid()
    && n.out == [] && n.inc == [] && n.next > 0 && n.exact
  }

  /** The net after a list of moves, each possible when it is made. */
  ghost predicate Reaches(n: Net, moves: seq<Move>, last: Net)
    decreases |moves|
  {
    if moves == [] then n == last
    else CanMove(n, moves[0]) && Reaches(Moved(n, moves[0]), moves[1..], last)
  }
}
