/**
 One sweep between two stations: the caller announces, bursts and asks, mode by mode; the listener
 arms, tallies and reports. Frames travel in order and may be lost; the listener's decode thread
 tallies burst frames as they come and queues control frames for the thread that serves them.
 Frames of any other sweep may come in between.
 */
module SweepNet {
  import opened Common
  import opened SweepResult

  datatype Control =
    | Announce(sid: nat, mode: Byte, count: nat)
    | Ready(sid: nat, mode: Byte)
    | Ask(sid: nat, mode: Byte)
    | Result(sid: nat, extra: Bytes)

  /** A frame on its way to the listener; a burst frame is good if its bytes are those expected of it. */
  datatype Frame = Ctl(c: Control) | Burst(sid: nat, mode: Byte, seqNo: nat, good: bool)

  // -- the receiver ------------------------------------------------------------------

  datatype Armed = Armed(sid: nat, mode: Byte, count: nat, tally: Tally)
  datatype Held = Held(sid: nat, tally: Tally)
  datatype Receiver = Receiver(armed: Option<Armed>, held: Option<Held>)

  predicate IsArmed(r: Receiver, sid: nat, mode: nat) {
    r.armed.Some? && r.armed.value.sid == sid && r.armed.value.mode == mode
  }

  /** A repeated announcement keeps the frames already counted. */
  function Arm(r: Receiver, sid: nat, mode: Byte, count: nat): Receiver {
    if IsArmed(r, sid, mode) && r.armed.value.tally.decoded != {} then r
    else r.(armed := Some(Armed(sid, mode, count, Tally(mode, count, {}, 0, []))))
  }

  function Disarm(r: Receiver): Receiver {
    if r.armed.None? then r else Receiver(None, Some(Held(r.armed.value.sid, r.armed.value.tally)))
  }

  /** `stale`: the tally has been held for too long. */
  function TallyFor(r: Receiver, sid: nat, mode: nat, stale: bool): Option<Tally> {
    if IsArmed(r, sid, mode) then Some(r.armed.value.tally)
    else if r.held.Some? && r.held.value.sid == sid && r.held.value.tally.modeId == mode && !stale
    then Some(r.held.value.tally)
    else None
  }

  function NearMiss(r: Receiver, mode: nat): Receiver {
    if r.armed.Some? && r.armed.value.mode == mode then
      var a := r.armed.value;
      r.(armed := Some(a.(tally := a.tally.(nearMissed := a.tally.nearMissed + 1))))
    else r
  }

  function Accept(r: Receiver, sid: nat, mode: Byte, seqNo: nat, good: bool, snr: Option<real>): Receiver {
    if !IsArmed(r, sid, mode) then r
    else if !good then NearMiss(r, mode)
    else
      var a := r.armed.value;
      var t := a.tally.(decoded := a.tally.decoded + {seqNo},
                        snr := if snr.Some? then a.tally.snr + [snr.value] else a.tally.snr);
      r.(armed := Some(a.(tally := t)))
  }

  // -- the listener --------------------------------------------------------------------

  /** A row of the listener's report. */
  datatype Row = Row(sid: nat, mode: Byte, tally: Tally)

  datatype Listener = Listener(
    known: set<Byte>, rx: Receiver, queue: seq<Control>,
    recorded: set<(nat, Byte)>, rows: seq<Row>)

  /** A listener after a step, and what it keyed. */
  datatype Served = Served(l: Listener, out: Option<Control>)

  function Serve(l: Listener, c: Control, stale: bool): Served {
    match c
    case Announce(sid, mode, count) =>
      if mode !in l.known then Served(l, None)
      else Served(l.(rx := Arm(l.rx, sid, mode, count)), Some(Ready(sid, mode)))
    case Ask(sid, mode) =>
      var rx := if IsArmed(l.rx, sid, mode) then Disarm(l.rx) else l.rx;
      var t := TallyFor(rx, sid, mode, stale);
      if t.None? then Served(l.(rx := rx), None)
      else
        var new_ := (sid, mode) !in l.recorded;
        Served(l.(rx := rx, recorded := l.recorded + {(sid, mode)},
                  rows := if new_ then l.rows + [Row(sid, mode, t.value)] else l.rows),
               Some(Result(sid, EncodeResult(mode, t.value).value)))
    case Ready(_, _) => Served(l, None)
    case Result(_, _) => Served(l, None)
  }

  // -- the caller ----------------------------------------------------------------------

  datatype Phase = Announcing | Bursting(next: nat) | Asking | Finished

  /** A row of the caller's report: what came back, or that nothing did. */
  datatype Collected = Got(mode: Byte, report: Report) | Lost(mode: Byte)

  datatype Caller = Caller(sid: nat, modes: seq<Byte>, count: nat, at: nat, phase: Phase, rows: seq<Collected>)

  function NextMode(c: Caller, row: Collected): Caller {
    c.(rows := c.rows + [row], at := c.at + 1, phase := if c.at + 1 < |c.modes| then Announcing else Finished)
  }

  /** A report that speaks of no frames is kept as one of all that were to be sent. */
  function Kept(count: nat, r: Report): Report {
    r.(sent := if r.sent == 0 then count else r.sent)
  }

  function Hear(c: Caller, f: Control): Caller
    requires c.at < |c.modes|
  {
    var mode := c.modes[c.at];
    if c.phase.Announcing? && f == Ready(c.sid, mode) then c.(phase := Bursting(0))
    else if c.phase.Asking? && f.Result? && f.sid == c.sid then
      var r := DecodeResult(f.extra);
      if r.Some? && r.value.modeId == mode then NextMode(c, Got(mode, Kept(c.count, r.value))) else c
    else c
  }

  // -- runs ---------------------------------------------------------------------------

  /** `results` lists every RESULT of the sweep ever keyed. */
  datatype Sys = Sys(caller: Caller, listener: Listener, air: seq<Frame>, back: seq<Control>, results: seq<Bytes>)

  datatype Move =
    | SendAnnounce | SendBurst | SendAsk | CallerHears | GiveUp | Stop
    | Decode(snr: Option<real>) | Garbled(mode: nat) | ServeNext(stale: bool) | Expire
    | LoseAir(k: nat) | LoseBack(k: nat) | Foreign(frame: Frame)

  predicate Can(s: Sys, m: Move) {
    match m
    case SendAnnounce => s.caller.phase.Announcing? && s.caller.at < |s.caller.modes|
    case SendBurst => s.caller.phase.Bursting? && s.caller.at < |s.caller.modes|
    case SendAsk => s.caller.phase.Asking? && s.caller.at < |s.caller.modes|
    case CallerHears => s.back != [] && (s.caller.phase.Announcing? || s.caller.phase.Asking?)
        && s.caller.at < |s.caller.modes|
    case GiveUp => s.caller.phase.Asking? && s.caller.at < |s.caller.modes|
    case Stop => s.caller.phase.Announcing?
    case Decode(_) => s.air != []
    case Garbled(_) => true
    case ServeNext(_) => s.listener.queue != []
    case Expire => true
    case LoseAir(k) => k < |s.air|
    case LoseBack(k) => k < |s.back|
    case Foreign(f) => (if f.Ctl? then f.c.sid else f.sid) != s.caller.sid
  }

  function Drop<T>(q: seq<T>, k: nat): seq<T>
    requires k < |q|
  {
    q[..k] + q[k + 1..]
  }

  function Step(s: Sys, m: Move): Sys
    requires Can(s, m)
  {
    var c, l := s.caller, s.listener;
    match m
    case SendAnnounce => s.(air := s.air + [Ctl(Announce(c.sid, c.modes[c.at], c.count))])
    case SendBurst =>
      if c.phase.next < c.count
      then s.(air := s.air + [Burst(c.sid, c.modes[c.at], c.phase.next, true)],
          caller := c.(phase := Bursting(c.phase.next + 1)))
      else s.(caller := c.(phase := Asking))
    case SendAsk => s.(air := s.air + [Ctl(Ask(c.sid, c.modes[c.at]))])
    case CallerHears => s.(caller := Hear(c, s.back[0]), back := s.back[1..])
    case GiveUp => s.(caller := NextMode(c, Lost(c.modes[c.at])))
    case Stop => s.(caller := c.(phase := Finished))
    case Decode(snr) =>
      var f := s.air[0];
      s.(air := s.air[1..],
         listener := if f.Ctl? then l.(queue := l.queue + [f.c])
                     else l.(rx := Accept(l.rx, f.sid, f.mode, f.seqNo, f.good, snr)))
    case Garbled(mode) => s.(listener := l.(rx := NearMiss(l.rx, mode)))
    case ServeNext(stale) =>
      var d := Serve(l.(queue := l.queue[1..]), l.queue[0], stale);
      s.(listener := d.l,
         back := if d.out.Some? then s.back + [d.out.value] else s.back,
         results := if d.out.Some? && d.out.value.Result? && d.out.value.sid == c.sid
                    then s.results + [d.out.value.extra] else s.results)
    case Expire => s.(listener := l.(rx := Disarm(l.rx)))
    case LoseAir(k) => s.(air := Drop(s.air, k))
    case LoseBack(k) => s.(back := Drop(s.back, k))
    case Foreign(f) => s.(air := s.air + [f])
  }

  ghost predicate Start(s: Sys) {
    && (forall i, j :: 0 <= i < j < |s.caller.modes| ==> s.caller.modes[i] != s.caller.modes[j])
    && s.caller.at == 0 && s.caller.rows == []
       && (if s.caller.modes == [] then s.caller.phase.Finished? else s.caller.phase.Announcing?)
    && s.listener.queue == [] && s.air == [] && s.back == [] && s.results == []
    && (forall r :: r in s.listener.rows ==> r.sid != s.caller.sid)
    && (forall e :: e in s.listener.recorded ==> e.0 != s.caller.sid)
    && (s.listener.rx.armed.Some? ==> s.listener.rx.armed.value.sid != s.caller.sid && Fitting(s.listener.rx))
    && (s.listener.rx.held.Some? ==> s.listener.rx.held.value.sid != s.caller.sid)
  }

  predicate Fitting(r: Receiver) {
    r.armed.Some? ==> r.armed.value.tally.modeId == r.armed.value.mode
  }

  ghost predicate Reaches(s: Sys, moves: seq<Move>, last: Sys)
    decreases |moves|
  {
    if moves == [] then s == last
    else Can(s, moves[0]) && Reaches(Step(s, moves[0]), moves[1..], last)
  }

  // -- what every step keeps -----------------------------------------------------------

  function Controls(air: seq<Frame>): seq<Control> {
    if air == [] then []
    else Controls(air[..|air| - 1]) + (if air[|air| - 1].Ctl? then [air[|air| - 1].c] else [])
  }

  /** Control frames the listener has not yet served, in order. */
  function Ahead(s: Sys): seq<Control> {
    s.listener.queue + Controls(s.air)
  }

  /** Modes whose announcing is over. */
  function Past(c: Caller): seq<Byte> {
    if c.phase.Bursting? || c.phase.Asking? then (if c.at < |c.modes| then c.modes[..c.at + 1] else c.modes)
    else if c.at <= |c.modes| then c.modes[..c.at] else c.modes
  }

  predicate Announces(f: Control, sid: nat, mode: Byte) {
    f.Announce? && f.sid == sid && f.mode == mode
  }

  /** No announcement follows a question about the same mode, and no question comes ahead of its time. */
  ghost predicate Ordered(c: Caller, q: seq<Control>) {
    && (forall i :: 0 <= i < |q| && q[i].Ask? && q[i].sid == c.sid ==> q[i].mode in Past(c))
    && (forall i, j :: 0 <= i < j < |q| && q[i].Ask? && q[i].sid == c.sid ==> !Announces(q[j], c.sid, q[i].mode))
  }

  /** A mode once reported is never armed or announced again, and its held tally is the one reported. */
  ghost predicate Settled(c: Caller, l: Listener, q: seq<Control>) {
    forall m: Byte :: (c.sid, m) in l.recorded ==>
      && m in Past(c) && !IsArmed(l.rx, c.sid, m)
      && (forall i :: 0 <= i < |q| ==> !Announces(q[i], c.sid, m))
      && (l.rx.held.Some? && l.rx.held.value.sid == c.sid && l.rx.held.value.tally.modeId == m ==>
            Row(c.sid, m, l.rx.held.value.tally) in l.rows)
  }

  /** One row a mode. */
  ghost predicate RowEach(sid: nat, l: Listener) {
    && Fitting(l.rx)
    && (forall r :: r in l.rows ==> (r.sid == sid ==> (sid, r.mode) in l.recorded))
    && (forall i, j :: 0 <= i < j < |l.rows| && l.rows[i].sid == sid ==>
         l.rows[j].sid != sid || l.rows[j].mode != l.rows[i].mode)
  }

  /** The row a RESULT speaks of. */
  ghost predicate SaysRow(sid: nat, rows: seq<Row>, e: Bytes, r: Row) {
    r in rows && r.sid == sid && |e| > 0 && r.mode == e[0] && Some(e) == EncodeResult(r.mode, r.tally)
  }

  ghost predicate Backed(sid: nat, rows: seq<Row>, e: Bytes) {
    exists r :: SaysRow(sid, rows, e, r)
  }

  ghost predicate FromRow(sid: nat, count: nat, rows: seq<Row>, c: Collected) {
    c.Got? ==>
      exists r :: r in rows && r.sid == sid && r.mode == c.mode && c.report == Kept(count, Reported(r.mode, r.tally))
  }

  /** Every result keyed, on its way or collected says what its row says. */
  ghost predicate Spoken(s: Sys, rows: seq<Row>) {
    && (forall e :: e in s.results ==> Backed(s.caller.sid, rows, e))
    && (forall f :: f in s.back && f.Result? && f.sid == s.caller.sid ==> Backed(s.caller.sid, rows, f.extra))
    && (forall c :: c in s.caller.rows ==> FromRow(s.caller.sid, s.caller.count, rows, c))
  }

  ghost predicate Agreed(s: Sys) {
    RowEach(s.caller.sid, s.listener) && Spoken(s, s.listener.rows)
  }

  ghost predicate Walking(c: Caller) {
    && (forall i, j :: 0 <= i < j < |c.modes| ==> c.modes[i] != c.modes[j])
    && c.at <= |c.modes| && (!c.phase.Finished? ==> c.at < |c.modes|)
  }

  ghost predicate Inv(s: Sys) {
    Walking(s.caller) && Ordered(s.caller, Ahead(s)) && Settled(s.caller, s.listener, Ahead(s)) && Agreed(s)
  }

  // -- the frames ahead ------------------------------------------------------------------

  lemma {:induction false} ControlsJoin(a: seq<Frame>, b: seq<Frame>)
    ensures Controls(a + b) == Controls(a) + Controls(b)
    decreases |b|
  {
    if b == [] {
      assert a + b == a;
    } else {
      var b', f := b[..|b| - 1], b[|b| - 1];
      ControlsJoin(a, b');
      assert (a + b)[..|a + b| - 1] == a + b';
    }
  }

  lemma ControlsOne(f: Frame)
    ensures Controls([f]) == if f.Ctl? then [f.c] else []
  {
    assert [f][..0] == [];
  }

  lemma ShrinksOrdered(c: Caller, l: Listener, q: seq<Control>, a: seq<Control>, b: seq<Control>, x: Control)
    requires Ordered(c, q) && Settled(c, l, q) && q == a + [x] + b
    ensures Ordered(c, a + b) && Settled(c, l, a + b)
  {
    var r := a + b;
    forall i | 0 <= i < |r| ensures r[i] == q[if i < |a| then i else i + 1] {}
  }

  /** The last frame on: an answerable question, or an announcement of a mode still to be announced. */
  lemma GrowsOrdered(c: Caller, l: Listener, q: seq<Control>, x: Control)
    requires Ordered(c, q) && Settled(c, l, q)
    requires x.sid == c.sid ==> (x.Ask? && x.mode in Past(c)) || (x.Announce? && x.mode !in Past(c))
    ensures Ordered(c, q + [x]) && Settled(c, l, q + [x])
  {
  }

  lemma LaterPast(c: Caller, c': Caller, l: Listener, q: seq<Control>)
    requires Ordered(c, q) && Settled(c, l, q) && c'.sid == c.sid && forall m :: m in Past(c) ==> m in Past(c')
    ensures Ordered(c', q) && Settled(c', l, q)
  {
  }

  // -- the steps -------------------------------------------------------------------------

  lemma AirKeeps(s: Sys, m: Move)
    requires Inv(s) && Can(s, m)
    requires m.SendAnnounce? || m.SendBurst? || m.SendAsk? || m.Foreign? || m.LoseAir? || m.LoseBack?
    ensures Inv(Step(s, m))
  {
    var c, l, q := s.caller, s.listener, Ahead(s);
    var s' := Step(s, m);
    match m
    case SendAnnounce =>
      var x := Announce(c.sid, c.modes[c.at], c.count);
      Sends(s, Ctl(x));
      GrowsOrdered(c, l, q, x);
    case SendAsk =>
      var x := Ask(c.sid, c.modes[c.at]);
      Sends(s, Ctl(x));
      GrowsOrdered(c, l, q, x);
    case SendBurst =>
      Sends(s, Burst(c.sid, c.modes[c.at], c.phase.next, true));
      LaterPast(c, s'.caller, l, q);
    case Foreign(f) =>
      Sends(s, f);
      if f.Ctl? { GrowsOrdered(c, l, q, f.c); }
    case LoseAir(k) =>
      Loses(s, k);
    case LoseBack(k) =>
  }

  lemma Sends(s: Sys, f: Frame)
    ensures Ahead(s.(air := s.air + [f])) == if f.Ctl? then Ahead(s) + [f.c] else Ahead(s)
  {
    ControlsJoin(s.air, [f]);
    ControlsOne(f);
  }

  lemma Loses(s: Sys, k: nat)
    requires Inv(s) && k < |s.air|
    ensures var q := Ahead(s.(air := Drop(s.air, k))); Ordered(s.caller, q) && Settled(s.caller, s.listener, q)
  {
    hide Ordered, Settled, Agreed, Controls, Walking;
    var a, x, b := s.air[..k], s.air[k], s.air[k + 1..];
    assert s.air == a + [x] + b;
    ControlsJoin(a + [x], b);
    ControlsJoin(a, [x]);
    ControlsJoin(a, b);
    ControlsOne(x);
    var l := s.listener.queue + Controls(a);
    assert Ahead(s.(air := Drop(s.air, k))) == l + Controls(b);
    if x.Ctl? {
      assert Ahead(s) == l + [x.c] + Controls(b);
      ShrinksOrdered(s.caller, s.listener, Ahead(s), l, Controls(b), x.c);
    } else {
      assert Ahead(s) == l + Controls(b);
    }
  }

  lemma CallerKeeps(s: Sys, m: Move)
    requires Inv(s) && Can(s, m) && (m.GiveUp? || m.Stop?)
    ensures Inv(Step(s, m))
  {
    LaterPast(s.caller, Step(s, m).caller, s.listener, Ahead(s));
  }

  lemma HearsKeeps(s: Sys)
    requires Inv(s) && Can(s, CallerHears)
    ensures Inv(Step(s, CallerHears))
  {
    var s', f := Step(s, CallerHears), s.back[0];
    LaterPast(s.caller, s'.caller, s.listener, Ahead(s));
    HearsAgrees(s, f);
    assert Ahead(s') == Ahead(s);
    assert Walking(s'.caller);
  }

  lemma HearsAgrees(s: Sys, f: Control)
    requires Agreed(s) && s.back != [] && f == s.back[0] && s.caller.at < |s.caller.modes|
    ensures Agreed(s.(caller := Hear(s.caller, f), back := s.back[1..]))
  {
    if f.Result? && f.sid == s.caller.sid {
      var r := BackingRow(s.caller.sid, s.listener.rows, f.extra);
      Reports(r.mode, r.tally);
      hide EncodeResult, DecodeResult, Reported, Backed;
      CollectsRow(s.caller, f, r);
      CallerAgrees(s, Hear(s.caller, f), r);
    } else {
      CallerAgrees(s, Hear(s.caller, f), Row(0, 0, Tally(0, 0, {}, 0, [])));
    }
  }

  lemma BackingRow(sid: nat, rows: seq<Row>, e: Bytes) returns (r: Row)
    requires Backed(sid, rows, e)
    ensures SaysRow(sid, rows, e, r)
  {
    r :| SaysRow(sid, rows, e, r);
  }

  lemma CallerAgrees(s: Sys, c: Caller, r: Row)
    requires Agreed(s) && s.back != [] && c.sid == s.caller.sid && c.count == s.caller.count
    requires c.rows == s.caller.rows
             || (r in s.listener.rows && r.sid == c.sid
                 && c.rows == s.caller.rows + [Got(r.mode, Kept(c.count, Reported(r.mode, r.tally)))])
    ensures Agreed(s.(caller := c, back := s.back[1..]))
  {
    hide EncodeResult, Reported, Backed;
    assert forall f :: f in s.back[1..] ==> f in s.back;
  }

  /** Taking in a RESULT that says what a row says adds nothing, or exactly that row. */
  lemma CollectsRow(c: Caller, f: Control, r: Row)
    requires c.at < |c.modes| && f.Result? && f.sid == c.sid
    requires DecodeResult(f.extra) == Some(Reported(r.mode, r.tally))
    ensures Hear(c, f).rows == c.rows
            || Hear(c, f).rows == c.rows + [Got(r.mode, Kept(c.count, Reported(r.mode, r.tally)))]
  {
    assert Reported(r.mode, r.tally).modeId == r.mode;
  }

  lemma DecodeKeeps(s: Sys, m: Move)
    requires Inv(s) && Can(s, m) && (m.Decode? || m.Garbled? || m.Expire?)
    ensures Inv(Step(s, m))
  {
    var s' := Step(s, m);
    if m.Decode? {
      var f := s.air[0];
      assert s.air == [f] + s.air[1..];
      ControlsJoin([f], s.air[1..]);
      ControlsOne(f);
    }
    assert Ahead(s') == Ahead(s);
    ReceiverKeeps(s, m);
    hide Ahead, Controls, Settled, Agreed, Ordered, Accept, NearMiss, Disarm;
  }

  /** Tallying, a near miss or an expiry arms nothing and holds only what was armed. */
  lemma ReceiverKeeps(s: Sys, m: Move)
    requires Inv(s) && Can(s, m) && (m.Decode? || m.Garbled? || m.Expire?)
    ensures var s' := Step(s, m); Settled(s'.caller, s'.listener, Ahead(s)) && Agreed(s')
  {
    var s' := Step(s, m);
    var l, rx := s.listener, s'.listener.rx;
    assert s'.listener == l.(rx := rx, queue := s'.listener.queue);
    RxKeeps(l.rx, rx, m, s);
    hide Ahead, Accept, NearMiss, Disarm, Backed, FromRow;
    assert Settled(s'.caller, s'.listener, Ahead(s)) by { hide Agreed, Ordered; }
    assert Agreed(s') by { hide Settled, Ordered; }
  }

  /** What a receiver is armed for stays, or is held instead. */
  lemma RxKeeps(r: Receiver, rx: Receiver, m: Move, s: Sys)
    requires Can(s, m) && (m.Decode? || m.Garbled? || m.Expire?) && r == s.listener.rx && rx == Step(s, m).listener.rx
    requires Fitting(r)
    ensures Fitting(rx) && (rx.armed.Some? ==> r.armed.Some? && rx.armed.value.sid == r.armed.value.sid
                                               && rx.armed.value.mode == r.armed.value.mode)
    ensures rx.held == r.held
            || (rx.armed.None? && r.armed.Some? && rx.held == Some(Held(r.armed.value.sid, r.armed.value.tally)))
  {
  }

  lemma ServeKeeps(s: Sys, stale: bool)
    requires Inv(s) && Can(s, ServeNext(stale))
    ensures Inv(Step(s, ServeNext(stale)))
  {
    var l, f := s.listener.(queue := s.listener.queue[1..]), s.listener.queue[0];
    var q := Ahead(s.(listener := l));
    assert [] + [f] + q == [f] + q == Ahead(s) && [] + q == q;
    ShrinksOrdered(s.caller, s.listener, [f] + q, [], q, f);
    ServedQueue(s, stale);
    hide Settled, Ordered, Agreed, Ahead;
    SettledQueue(s.caller, s.listener, l, q);
    if f.Announce? {
      ServesAnnounce(s, l, q, f);
    } else if f.Ask? {
      ServesAsk(s, l, q, f, stale);
    } else {
      ServesNothing(s, l, f, stale);
    }
  }

  lemma SettledQueue(c: Caller, l: Listener, l': Listener, q: seq<Control>)
    requires Settled(c, l, q) && l' == l.(queue := l'.queue)
    ensures Settled(c, l', q)
  {
  }

  lemma ServedQueue(s: Sys, stale: bool)
    requires Can(s, ServeNext(stale))
    ensures var s' := Step(s, ServeNext(stale));
      s'.listener.queue == s.listener.queue[1..] && s'.air == s.air && s'.caller == s.caller
      && Ahead(s') == Ahead(s.(listener := s.listener.(queue := s.listener.queue[1..])))
  {
  }

  lemma ServesNothing(s: Sys, l: Listener, f: Control, stale: bool)
    requires !f.Announce? && !f.Ask? && s.listener.queue != [] && f == s.listener.queue[0]
    requires Agreed(s) && l == s.listener.(queue := s.listener.queue[1..])
    ensures Serve(l, f, stale) == Served(l, None) && Agreed(Step(s, ServeNext(stale)))
  {
  }

  lemma ServesAnnounce(s: Sys, l: Listener, q: seq<Control>, f: Control)
    requires f.Announce? && s.listener.queue != [] && f == s.listener.queue[0]
        && l == s.listener.(queue := s.listener.queue[1..])
    requires Settled(s.caller, s.listener, [f] + q) && Settled(s.caller, l, q) && Agreed(s)
    ensures forall stale: bool ::
      Settled(s.caller, Serve(l, f, stale).l, q) && Agreed(Step(s, ServeNext(stale)))
  {
    assert ([f] + q)[0] == f;
  }

  lemma ServesAsk(s: Sys, l: Listener, q: seq<Control>, f: Control, stale: bool)
    requires f.Ask? && s.listener.queue != [] && f == s.listener.queue[0]
        && l == s.listener.(queue := s.listener.queue[1..])
    requires Ordered(s.caller, [f] + q) && Settled(s.caller, l, q) && Agreed(s)
    ensures Settled(s.caller, Serve(l, f, stale).l, q) && Agreed(Step(s, ServeNext(stale)))
  {
    assert ([f] + q)[0] == f;
    assert forall i :: 0 <= i < |q| ==> ([f] + q)[i + 1] == q[i];
    AskSettles(s.caller, l, q, f, stale);
    AskAgrees(s, l, f, stale);
  }

  lemma AskSettles(c: Caller, l: Listener, q: seq<Control>, f: Control, stale: bool)
    requires f.Ask? && Settled(c, l, q) && Fitting(l.rx)
    requires f.sid == c.sid ==> f.mode in Past(c) && forall i :: 0 <= i < |q| ==> !Announces(q[i], c.sid, f.mode)
    ensures Settled(c, Serve(l, f, stale).l, q)
  {
  }

  lemma AskAgrees(s: Sys, l: Listener, f: Control, stale: bool)
    requires f.Ask? && s.listener.queue != [] && f == s.listener.queue[0]
        && l == s.listener.(queue := s.listener.queue[1..])
    requires Agreed(s) && Settled(s.caller, l, [])
    ensures Agreed(Step(s, ServeNext(stale)))
  {
    assert RowEach(s.caller.sid, l) && Fitting(l.rx);
    hide Settled, EncodeResult, RowEach, Spoken;
    var d, sid := Serve(l, f, stale), s.caller.sid;
    var s' := Step(s, ServeNext(stale));
    AskRowEach(sid, l, f, stale);
    RowsGrow(l, f, stale);
    SpokenGrows(s, l.rows, d.l.rows);
    AnswerShape(l, f, stale);
    if d.out.Some? {
      if f.sid == sid { AskBacked(s.caller, l, f, stale); }
      SpokenMore(s, d.l.rows, d.out.value);
    }
    SpokenOf(s.(back := s'.back, results := s'.results), s', d.l.rows);
  }

  lemma SpokenMore(s: Sys, rows: seq<Row>, f: Control)
    requires Spoken(s, rows) && f.Result? && (f.sid == s.caller.sid ==> Backed(s.caller.sid, rows, f.extra))
    ensures var results := if f.sid == s.caller.sid then s.results + [f.extra] else s.results;
      Spoken(s.(back := s.back + [f], results := results), rows)
  {
    hide Backed, FromRow;
  }

  lemma SpokenOf(s: Sys, s': Sys, rows: seq<Row>)
    requires Spoken(s, rows) && s'.caller == s.caller && s'.back == s.back && s'.results == s.results
    ensures Spoken(s', rows)
  {
  }

  lemma AskRowEach(sid: nat, l: Listener, f: Control, stale: bool)
    requires f.Ask? && RowEach(sid, l)
    ensures RowEach(sid, Serve(l, f, stale).l)
  {
    RowsGrow(l, f, stale);
    hide Serve;
  }

  lemma AnswerShape(l: Listener, f: Control, stale: bool)
    requires f.Ask?
    ensures var out := Serve(l, f, stale).out; out.Some? ==> out.value.Result? && out.value.sid == f.sid
  {
  }

  lemma SpokenGrows(s: Sys, rows: seq<Row>, rows': seq<Row>)
    requires Spoken(s, rows) && forall r :: r in rows ==> r in rows'
    ensures Spoken(s, rows')
  {
    hide EncodeResult, Reported;
    forall e | Backed(s.caller.sid, rows, e) ensures Backed(s.caller.sid, rows', e) {
      var r := BackingRow(s.caller.sid, rows, e);
      assert SaysRow(s.caller.sid, rows', e, r);
    }
  }

  lemma RowsGrow(l: Listener, f: Control, stale: bool)
    requires f.Ask?
    ensures var d := Serve(l, f, stale).l;
      && (forall r :: r in l.rows ==> r in d.rows)
      && (d.rows == l.rows || ((f.sid, f.mode) !in l.recorded && |d.rows| == |l.rows| + 1
         && d.rows[..|l.rows|] == l.rows
                               && d.rows[|l.rows|].sid == f.sid && d.rows[|l.rows|].mode == f.mode
                               && (f.sid, f.mode) in d.recorded))
      && l.recorded <= d.recorded && (Fitting(l.rx) ==> Fitting(d.rx))
  {
  }

  /** Whatever a question is answered with is what a row says. */
  lemma AskBacked(c: Caller, l: Listener, f: Control, stale: bool)
    requires f.Ask? && f.sid == c.sid && Settled(c, l, []) && Fitting(l.rx) && Serve(l, f, stale).out.Some?
    ensures var d := Serve(l, f, stale);
      d.out.value.Result? && Backed(c.sid, d.l.rows, d.out.value.extra)
  {
    var rx := if IsArmed(l.rx, f.sid, f.mode) then Disarm(l.rx) else l.rx;
    var t := TallyFor(rx, f.sid, f.mode, stale).value;
    var r := Row(f.sid, f.mode, t);
    assert SaysRow(c.sid, Serve(l, f, stale).l.rows, Serve(l, f, stale).out.value.extra, r);
  }

  lemma {:induction false} RunKeeps(s: Sys, moves: seq<Move>, last: Sys)
    requires Inv(s) && Reaches(s, moves, last)
    ensures Inv(last) && last.caller.sid == s.caller.sid && last.caller.count == s.caller.count
    decreases |moves|
  {
    if moves != [] {
      var m := moves[0];
      hide Inv;
      match m {
        case CallerHears => HearsKeeps(s);
        case GiveUp => CallerKeeps(s, m);
        case Stop => CallerKeeps(s, m);
        case Decode(_) => DecodeKeeps(s, m);
        case Garbled(_) => DecodeKeeps(s, m);
        case Expire => DecodeKeeps(s, m);
        case ServeNext(stale) => ServeKeeps(s, stale);
        case _ => AirKeeps(s, m);
      }
      RunKeeps(Step(s, m), moves[1..], last);
    }
  }

  lemma StartKeeps(s: Sys)
    requires Start(s)
    ensures Inv(s)
  {
  }

  /**
   Sweep agreement, in every run: all RESULT frames of one mode are equal; the listener has one row
   for it; and a row the caller collected says what that row says, exactly if the tally fits the frame.
   */
  lemma SweepAgrees(s: Sys, moves: seq<Move>, last: Sys)
    requires Start(s) && Reaches(s, moves, last)
    ensures var sid, rows := s.caller.sid, last.listener.rows;
      && (forall e, f :: e in last.results && f in last.results && |e| > 0 && |f| > 0 && e[0] == f[0] ==> e == f)
      && (forall e :: e in last.results ==> Backed(sid, rows, e))
      && (forall i, j :: 0 <= i < j < |rows| && rows[i].sid == sid ==>
           rows[j].sid != sid || rows[j].mode != rows[i].mode)
      && (forall c :: c in last.caller.rows && c.Got? ==> Collects(s.caller, rows, c))
  {
    StartKeeps(s);
    RunKeeps(s, moves, last);
    hide Reaches, Start, Ordered, Settled, Collects, Kept;
    forall e, f | e in last.results && f in last.results && |e| > 0 && |f| > 0 && e[0] == f[0] ensures e == f {
      var r := BackingRow(s.caller.sid, last.listener.rows, e);
      var t := BackingRow(s.caller.sid, last.listener.rows, f);
      OneRow(s.caller.sid, last.listener, r, t);
    }
    forall c | c in last.caller.rows && c.Got? ensures Collects(s.caller, last.listener.rows, c) {
      assert FromRow(s.caller.sid, s.caller.count, last.listener.rows, c);
      CollectsExact(s.caller, last.listener.rows, c);
    }
  }

  /** A collected row says what a row of the listener says, exactly if that row fits. */
  ghost predicate Collects(caller: Caller, rows: seq<Row>, c: Collected)
    requires c.Got?
  {
    exists r :: r in rows && r.sid == caller.sid && r.mode == c.mode
                && c.report == Kept(caller.count, Reported(r.mode, r.tally))
                && (Fits(r.tally) && r.tally.expected > 0 ==> c.report == Exact(r.mode, r.tally))
  }

  lemma CollectsExact(caller: Caller, rows: seq<Row>, c: Collected)
    requires c.Got? && FromRow(caller.sid, caller.count, rows, c)
    ensures Collects(caller, rows, c)
  {
    var r :| r in rows && r.sid == caller.sid && r.mode == c.mode
        && c.report == Kept(caller.count, Reported(r.mode, r.tally));
    RoundTrip(r.mode, r.tally);
    Reports(r.mode, r.tally);
  }

  lemma OneRow(sid: nat, l: Listener, r: Row, t: Row)
    requires RowEach(sid, l) && r in l.rows && t in l.rows && r.sid == t.sid == sid && r.mode == t.mode
    ensures r == t
  {
  }

  // -- what is counted -------------------------------------------------------------------

  /** What the decode thread reports of a burst: a frame it has decoded, or one it could not. */
  datatype Decoded = Framed(sid: nat, mode: Byte, seqNo: nat, good: bool, snr: Option<real>) | Near(about: nat)

  function Counts(r: Receiver, e: Decoded): Receiver {
    match e
    case Framed(sid, mode, seqNo, good, snr) => Accept(r, sid, mode, seqNo, good, snr)
    case Near(about) => NearMiss(r, about)
  }

  function Counting(r: Receiver, events: seq<Decoded>): Receiver {
    if events == [] then r else Counts(Counting(r, events[..|events| - 1]), events[|events| - 1])
  }

  /** A frame of the burst that came through. */
  predicate Came(e: Decoded, sid: nat, mode: Byte) {
    e.Framed? && e.sid == sid && e.mode == mode && e.good
  }

  /** One that nearly did: its bytes were wrong, or its mode was all that could be told. */
  predicate Nearly(e: Decoded, sid: nat, mode: Byte) {
    if e.Near? then e.about == mode else e.sid == sid && e.mode == mode && !e.good
  }

  function CameThrough(events: seq<Decoded>, sid: nat, mode: Byte): set<nat> {
    set e | e in events && Came(e, sid, mode) :: e.seqNo
  }

  function NearlyCame(events: seq<Decoded>, sid: nat, mode: Byte): nat {
    if events == [] then 0
    else NearlyCame(events[..|events| - 1], sid, mode) + if Nearly(events[|events| - 1], sid, mode) then 1 else 0
  }

  function Estimates(events: seq<Decoded>, sid: nat, mode: Byte): seq<real> {
    if events == [] then []
    else
      var e := events[|events| - 1];
      Estimates(events[..|events| - 1], sid, mode)
      + if Came(e, sid, mode) && e.snr.Some? then [e.snr.value] else []
  }

  /** While a burst is listened for, each of its frames is counted for what it was, and nothing else is. */
  lemma {:induction false} CountsEach(r: Receiver, events: seq<Decoded>)
    ensures r.armed.None? ==> Counting(r, events) == r
    ensures r.armed.Some? ==> Counting(r, events) == r.(armed := Some(Counted(r.armed.value, events)))
    decreases |events|
  {
    if events != [] {
      var init, e := events[..|events| - 1], events[|events| - 1];
      CountsEach(r, init);
      assert events == init + [e];
      if r.armed.Some? {
        CameMore(init, e, r.armed.value.sid, r.armed.value.mode);
        CountsOne(r.armed.value, init, e);
      }
      hide CameThrough, Counted, Came, Nearly;
    } else if r.armed.Some? {
      var a := r.armed.value;
      assert CameThrough(events, a.sid, a.mode) == {};
      assert a.tally.decoded + {} == a.tally.decoded && a.tally.snr + [] == a.tally.snr;
      assert r.armed == Some(Counted(a, events));
    }
  }

  /** What was counted before, and every event since. */
  function Counted(a: Armed, events: seq<Decoded>): Armed {
    a.(tally := a.tally.(decoded := a.tally.decoded + CameThrough(events, a.sid, a.mode),
                         nearMissed := a.tally.nearMissed + NearlyCame(events, a.sid, a.mode),
                         snr := a.tally.snr + Estimates(events, a.sid, a.mode)))
  }

  lemma CountsOne(a: Armed, events: seq<Decoded>, e: Decoded)
    requires CameThrough(events + [e], a.sid, a.mode)
          == CameThrough(events, a.sid, a.mode) + if Came(e, a.sid, a.mode) then {e.seqNo} else {}
    ensures forall held :: Counts(Receiver(Some(Counted(a, events)), held), e)
                        == Receiver(Some(Counted(a, events + [e])), held)
  {
    assert (events + [e])[..|events|] == events;
    var snr, came := Estimates(events, a.sid, a.mode), CameThrough(events, a.sid, a.mode);
    if Came(e, a.sid, a.mode) {
      assert a.tally.decoded + came + {e.seqNo} == a.tally.decoded + (came + {e.seqNo});
      if e.snr.Some? { assert a.tally.snr + snr + [e.snr.value] == a.tally.snr + (snr + [e.snr.value]); }
    }
    assert came + {} == came && snr + [] == snr;
    hide CameThrough;
  }

  lemma CameMore(events: seq<Decoded>, e: Decoded, sid: nat, mode: Byte)
    ensures CameThrough(events + [e], sid, mode)
         == CameThrough(events, sid, mode) + if Came(e, sid, mode) then {e.seqNo} else {}
  {
    var all := events + [e];
    forall f ensures f in all <==> f in events || f == e {
      if f in events {
        var k :| 0 <= k < |events| && events[k] == f;
        assert all[k] == f;
      }
      assert all[|events|] == e;
    }
  }

  // -- questions asked again, or in vain ------------------------------------------------------

  /** A mode the listener does not have is not armed and not answered for. */
  lemma UnknownUnanswered(l: Listener, sid: nat, mode: Byte, count: nat, stale: bool)
    requires mode !in l.known
    ensures Serve(l, Announce(sid, mode, count), stale) == Served(l, None)
  {
  }

  /** Nor is a question about a mode neither armed nor held, or held for too long; it changes nothing. */
  lemma StaleUnanswered(l: Listener, sid: nat, mode: Byte, stale: bool)
    requires !IsArmed(l.rx, sid, mode)
    requires stale || !(l.rx.held.Some? && l.rx.held.value.sid == sid && l.rx.held.value.tally.modeId == mode)
    ensures Serve(l, Ask(sid, mode), stale) == Served(l, None)
  {
  }

  /** An announcement repeated once a frame has been counted takes nothing from the count. */
  lemma AnnouncedAgain(l: Listener, sid: nat, mode: Byte, count: nat, stale: bool)
    requires mode in l.known && IsArmed(l.rx, sid, mode) && l.rx.armed.value.tally.decoded != {}
    ensures Serve(l, Announce(sid, mode, count), stale) == Served(l, Some(Ready(sid, mode)))
  {
  }

  /** What was counted is reported alike while the burst is listened for and once that is over. */
  lemma HeldAlike(r: Receiver, sid: nat, mode: Byte, stale: bool)
    requires Fitting(r) && IsArmed(r, sid, mode)
    ensures TallyFor(Disarm(r), sid, mode, false) == TallyFor(r, sid, mode, stale)
    ensures forall m: nat, gone: bool :: m != mode ==> TallyFor(Disarm(r), sid, m, gone) == None
  {
  }

  /** A question asked again is answered the same, and recorded no second time. */
  lemma AskAgain(l: Listener, sid: nat, mode: Byte, stale: bool)
    requires Fitting(l.rx) && Serve(l, Ask(sid, mode), stale).out.Some?
    ensures var d := Serve(l, Ask(sid, mode), stale); Serve(d.l, Ask(sid, mode), false) == d
  {
    hide EncodeResult;
    assert forall s: set<(nat, Byte)>, e :: e in s ==> s + {e} == s;
  }

  // -- a sweep in which nothing is lost -----------------------------------------------------

  function UpTo(n: nat): (s: set<nat>)
    ensures |s| == n && forall i: nat :: i in s <==> i < n
  {
    if n == 0 then {} else UpTo(n - 1) + {n - 1}
  }

  function Heard(snrs: seq<Option<real>>): seq<real> {
    if snrs == [] then []
    else Heard(snrs[..|snrs| - 1]) + if snrs[|snrs| - 1].Some? then [snrs[|snrs| - 1].value] else []
  }

  /** The tally of a burst of which the first `|snrs|` frames have come through. */
  function Through(mode: Byte, count: nat, snrs: seq<Option<real>>): Tally {
    Tally(mode, count, UpTo(|snrs|), 0, Heard(snrs))
  }

  /** Nothing is on its way, and the caller is about to announce a mode new to the listener. */
  ghost predicate About(s: Sys) {
    && s.air == [] && s.back == [] && s.listener.queue == []
    && s.caller.phase.Announcing? && s.caller.at < |s.caller.modes|
    && s.caller.modes[s.caller.at] in s.listener.known
    && (s.caller.sid, s.caller.modes[s.caller.at]) !in s.listener.recorded
    && !IsArmed(s.listener.rx, s.caller.sid, s.caller.modes[s.caller.at])
  }

  /** The caller in a phase, and the listener armed with what has come through. */
  function Listening(s: Sys, phase: Phase, snrs: seq<Option<real>>): Sys
    requires s.caller.at < |s.caller.modes|
  {
    var c, l, mode := s.caller, s.listener, s.caller.modes[s.caller.at];
    s.(caller := c.(phase := phase),
       listener := l.(rx := l.rx.(armed := Some(Armed(c.sid, mode, c.count, Through(mode, c.count, snrs))))))
  }

  /** The mode measured: a row at both ends. */
  function Measured(s: Sys, snrs: seq<Option<real>>): (t: Sys)
    requires s.caller.at < |s.caller.modes|
  {
    var c, l := s.caller, s.listener;
    var mode, whole := c.modes[c.at], Through(c.modes[c.at], c.count, snrs);
    s.(caller := NextMode(c, Got(mode, Kept(c.count, Reported(mode, whole)))),
       listener := l.(rx := Receiver(None, Some(Held(c.sid, whole))), recorded := l.recorded + {(c.sid, mode)},
                      rows := l.rows + [Row(c.sid, mode, whole)]),
       results := s.results + [EncodeResult(mode, whole).value])
  }

  lemma {:induction false} ReachesMore(s: Sys, moves: seq<Move>, mid: Sys, m: Move, t: Sys)
    requires Reaches(s, moves, mid) && Can(mid, m) && t == Step(mid, m)
    ensures Reaches(s, moves + [m], t)
    decreases |moves|
  {
    hide Can, Step;
    if moves == [] {
      assert [] + [m] == [m] && Reaches(t, [], t) && [m][1..] == [];
    } else {
      ReachesMore(Step(s, moves[0]), moves[1..], mid, m, t);
      assert (moves + [m])[1..] == moves[1..] + [m];
    }
  }

  /** A frame keyed on empty air is the next to be decoded. */
  lemma OnAir(f: Frame)
    ensures [] + [f] == [f] && [f][1..] == [] && [f][0] == f
  {
  }

  lemma Queued(c: Control)
    ensures [] + [c] == [c] && [c][1..] == [] && [c][0] == c
  {
  }

  /** The announcement is keyed, served and answered. */
  lemma AnnounceServed(s: Sys) returns (moves: seq<Move>)
    requires About(s)
    ensures Reaches(s, moves, Listening(s, Bursting(0), []))
  {
    var c := s.caller;
    var mode := c.modes[c.at];
    var a := Announce(c.sid, mode, c.count);
    var s1, s2 := s.(air := [Ctl(a)]), s.(listener := s.listener.(queue := [a]));
    var s4 := Listening(s, Bursting(0), []);
    var s3 := s4.(caller := c, back := [Ready(c.sid, mode)]);
    OnAir(Ctl(a));
    Queued(a);
    Queued(Ready(c.sid, mode));
    AnnounceArms(s, a);
    moves := [];
    ReachesMore(s, moves, s, SendAnnounce, s1);
    moves := moves + [SendAnnounce];
    hide Reaches;
    ReachesMore(s, moves, s1, Decode(None), s2);
    moves := moves + [Decode(None)];
    ReachesMore(s, moves, s2, ServeNext(false), s3);
    moves := moves + [ServeNext(false)];
    ReachesMore(s, moves, s3, CallerHears, s4);
    moves := moves + [CallerHears];
  }

  lemma AnnounceArms(s: Sys, a: Control)
    requires About(s) && a == Announce(s.caller.sid, s.caller.modes[s.caller.at], s.caller.count)
    ensures Serve(s.listener, a, false)
         == Served(Listening(s, Bursting(0), []).listener, Some(Ready(s.caller.sid, s.caller.modes[s.caller.at])))
  {
  }

  lemma ThroughMore(mode: Byte, count: nat, snrs: seq<Option<real>>, k: nat)
    requires k < |snrs|
    ensures var t := Through(mode, count, snrs[..k]);
      Through(mode, count, snrs[..k + 1])
        == t.(decoded := t.decoded + {k}, snr := if snrs[k].Some? then t.snr + [snrs[k].value] else t.snr)
  {
    assert snrs[..k + 1][..k] == snrs[..k];
    assert Heard(snrs[..k]) + [] == Heard(snrs[..k]);
  }

  /** One frame of the burst is keyed and counted. */
  lemma BurstCounted(s: Sys, snrs: seq<Option<real>>, k: nat, moves: seq<Move>)
    requires About(s) && k < |snrs| == s.caller.count && Reaches(s, moves, Listening(s, Bursting(k), snrs[..k]))
    ensures Reaches(s, moves + [SendBurst] + [Decode(snrs[k])], Listening(s, Bursting(k + 1), snrs[..k + 1]))
  {
    var mode := s.caller.modes[s.caller.at];
    var b := Listening(s, Bursting(k), snrs[..k]);
    var f := Burst(s.caller.sid, mode, k, true);
    var b1 := Listening(s, Bursting(k + 1), snrs[..k]).(air := [f]);
    OnAir(f);
    ThroughMore(mode, s.caller.count, snrs, k);
    hide Through, Reaches;
    ReachesMore(s, moves, b, SendBurst, b1);
    ReachesMore(s, moves + [SendBurst], b1, Decode(snrs[k]), Listening(s, Bursting(k + 1), snrs[..k + 1]));
  }

  lemma {:induction false} BurstHeard(s: Sys, snrs: seq<Option<real>>, k: nat) returns (moves: seq<Move>)
    requires About(s) && k <= |snrs| == s.caller.count
    ensures Reaches(s, moves, Listening(s, Bursting(k), snrs[..k]))
  {
    hide Reaches, About, Listening;
    if k == 0 {
      moves := AnnounceServed(s);
      assert snrs[..0] == [];
    } else {
      moves := BurstHeard(s, snrs, k - 1);
      BurstCounted(s, snrs, k - 1, moves);
      moves := moves + [SendBurst] + [Decode(snrs[k - 1])];
    }
  }

  /** The question about a mode, as the listener has it. */
  function Asked(s: Sys, snrs: seq<Option<real>>): Sys
    requires s.caller.at < |s.caller.modes|
  {
    var b := Listening(s, Asking, snrs);
    b.(listener := b.listener.(queue := [Ask(s.caller.sid, s.caller.modes[s.caller.at])]))
  }

  lemma QuestionKeyed(s: Sys, snrs: seq<Option<real>>, moves: seq<Move>)
    requires About(s) && |snrs| == s.caller.count && Reaches(s, moves, Listening(s, Bursting(s.caller.count), snrs))
    ensures Reaches(s, moves + [SendBurst] + [SendAsk] + [Decode(None)], Asked(s, snrs))
  {
    var c := s.caller;
    var q := Ask(c.sid, c.modes[c.at]);
    var b, b1 := Listening(s, Bursting(c.count), snrs), Listening(s, Asking, snrs);
    OnAir(Ctl(q));
    Queued(q);
    hide Through, Reaches;
    ReachesMore(s, moves, b, SendBurst, b1);
    ReachesMore(s, moves + [SendBurst], b1, SendAsk, b1.(air := [Ctl(q)]));
    ReachesMore(s, moves + [SendBurst] + [SendAsk], b1.(air := [Ctl(q)]), Decode(None), Asked(s, snrs));
  }

  /** The question answered, the answer on its way back. */
  function Answered(s: Sys, snrs: seq<Option<real>>): Sys
    requires s.caller.at < |s.caller.modes|
  {
    var mode := s.caller.modes[s.caller.at];
    var e := EncodeResult(mode, Through(mode, s.caller.count, snrs)).value;
    Measured(s, snrs).(caller := s.caller.(phase := Asking), back := [Result(s.caller.sid, e)])
  }

  lemma AskServes(l: Listener, sid: nat, mode: Byte, a: Armed)
    requires l.rx.armed == Some(a) && a.sid == sid && a.mode == mode && a.tally.modeId == mode
    requires (sid, mode) !in l.recorded
    ensures Serve(l, Ask(sid, mode), false)
         == Served(l.(rx := Receiver(None, Some(Held(sid, a.tally))), recorded := l.recorded + {(sid, mode)},
                      rows := l.rows + [Row(sid, mode, a.tally)]),
                   Some(Result(sid, EncodeResult(mode, a.tally).value)))
  {
    hide EncodeResult;
  }

  lemma ResultHeard(c: Caller, e: Bytes, r: Report)
    requires c.phase.Asking? && c.at < |c.modes| && DecodeResult(e) == Some(r) && r.modeId == c.modes[c.at]
    ensures Hear(c, Result(c.sid, e)) == NextMode(c, Got(c.modes[c.at], Kept(c.count, r)))
  {
    hide DecodeResult;
  }

  lemma AskAnswered(s: Sys, snrs: seq<Option<real>>)
    requires About(s)
    ensures Can(Asked(s, snrs), ServeNext(false)) && Step(Asked(s, snrs), ServeNext(false)) == Answered(s, snrs)
  {
    var c, b := s.caller, Asked(s, snrs);
    var mode := c.modes[c.at];
    var a := Armed(c.sid, mode, c.count, Through(mode, c.count, snrs));
    var answer := Result(c.sid, EncodeResult(mode, Through(mode, c.count, snrs)).value);
    Queued(Ask(c.sid, mode));
    Queued(answer);
    AskServes(b.listener.(queue := []), c.sid, mode, a);
    hide Serve, EncodeResult, UpTo, Heard;
  }

  lemma AnswerTaken(s: Sys, snrs: seq<Option<real>>)
    requires About(s)
    ensures Can(Answered(s, snrs), CallerHears) && Step(Answered(s, snrs), CallerHears) == Measured(s, snrs)
  {
    var c := s.caller;
    var mode := c.modes[c.at];
    var whole := Through(mode, c.count, snrs);
    Reports(mode, whole);
    Queued(Result(c.sid, EncodeResult(mode, whole).value));
    ResultHeard(c.(phase := Asking), EncodeResult(mode, whole).value, Reported(mode, whole));
    hide Hear, EncodeResult, DecodeResult, Through;
  }

  /** A mode of which nothing is lost is measured: every frame of its burst counted, and a row at both ends. */
  lemma MeasuresOne(s: Sys, snrs: seq<Option<real>>) returns (moves: seq<Move>)
    requires About(s) && |snrs| == s.caller.count
    ensures Reaches(s, moves, Measured(s, snrs))
  {
    moves := BurstHeard(s, snrs, s.caller.count);
    assert snrs[..s.caller.count] == snrs;
    QuestionKeyed(s, snrs, moves);
    AskAnswered(s, snrs);
    AnswerTaken(s, snrs);
    hide *;
    moves := moves + [SendBurst] + [SendAsk] + [Decode(None)];
    ReachesMore(s, moves, Asked(s, snrs), ServeNext(false), Answered(s, snrs));
    moves := moves + [ServeNext(false)];
    ReachesMore(s, moves, Answered(s, snrs), CallerHears, Measured(s, snrs));
    moves := moves + [CallerHears];
  }

  /** The rest of a sweep all of whose modes are new to the listener. */
  ghost predicate AllAbout(s: Sys) {
    && s.air == [] && s.back == [] && s.listener.queue == [] && s.listener.rx.armed.None?
    && s.caller.at <= |s.caller.modes|
    && s.caller.phase == (if s.caller.at < |s.caller.modes| then Announcing else Finished)
    && (forall i, j :: 0 <= i < j < |s.caller.modes| ==> s.caller.modes[i] != s.caller.modes[j])
    && forall i :: s.caller.at <= i < |s.caller.modes| ==>
         s.caller.modes[i] in s.listener.known && (s.caller.sid, s.caller.modes[i]) !in s.listener.recorded
  }

  lemma {:induction false} ReachesJoin(s: Sys, moves: seq<Move>, mid: Sys, more: seq<Move>, last: Sys)
    requires Reaches(s, moves, mid) && Reaches(mid, more, last)
    ensures Reaches(s, moves + more, last)
    decreases |moves|
  {
    hide Can, Step;
    if moves == [] {
      assert [] + more == more;
    } else {
      ReachesJoin(Step(s, moves[0]), moves[1..], mid, more, last);
      assert (moves + more)[1..] == moves[1..] + more;
    }
  }

  /** The listener's rows for some modes, every frame having come through. */
  function WholeRows(sid: nat, modes: seq<Byte>, count: nat, snrs: seq<Option<real>>): seq<Row> {
    seq(|modes|, i requires 0 <= i < |modes| => Row(sid, modes[i], Through(modes[i], count, snrs)))
  }

  /** And the caller's. */
  function WholeReports(modes: seq<Byte>, count: nat, snrs: seq<Option<real>>): seq<Collected> {
    seq(|modes|, i requires 0 <= i < |modes| =>
      Got(modes[i], Kept(count, Reported(modes[i], Through(modes[i], count, snrs)))))
  }

  /** Every mode from the one at hand on has been measured whole, in order, at both ends. */
  ghost predicate AllWhole(s: Sys, t: Sys, snrs: seq<Option<real>>) {
    var c := s.caller;
    && c.at <= |c.modes| && t.caller.rows == c.rows + WholeReports(c.modes[c.at..], c.count, snrs)
    && t.listener.rows == s.listener.rows + WholeRows(c.sid, c.modes[c.at..], c.count, snrs)
  }

  lemma OneDone(s: Sys, snrs: seq<Option<real>>)
    requires AllAbout(s) && s.caller.at < |s.caller.modes|
    ensures About(s) && AllAbout(Measured(s, snrs))
  {
    hide Through, Reported, Kept, EncodeResult;
  }

  lemma FirstWhole(sid: nat, modes: seq<Byte>, count: nat, snrs: seq<Option<real>>)
    requires modes != []
    ensures WholeRows(sid, modes, count, snrs)
         == [Row(sid, modes[0], Through(modes[0], count, snrs))] + WholeRows(sid, modes[1..], count, snrs)
    ensures WholeReports(modes, count, snrs)
         == [Got(modes[0], Kept(count, Reported(modes[0], Through(modes[0], count, snrs))))]
            + WholeReports(modes[1..], count, snrs)
  {
    hide Through, Reported, Kept;
  }

  lemma AllWholeOn(s: Sys, t: Sys, snrs: seq<Option<real>>)
    requires s.caller.at < |s.caller.modes| && AllWhole(Measured(s, snrs), t, snrs)
    ensures AllWhole(s, t, snrs)
  {
    var c, modes := s.caller, s.caller.modes[s.caller.at..];
    FirstWhole(c.sid, modes, c.count, snrs);
    assert modes[1..] == c.modes[c.at + 1..];
    hide Through, Reported, Kept, EncodeResult, WholeRows, WholeReports;
  }

  lemma NoneLeft(s: Sys, snrs: seq<Option<real>>)
    requires s.caller.at == |s.caller.modes|
    ensures AllWhole(s, s, snrs)
  {
  }

  /** A sweep of which nothing is lost measures all its modes, each wholly, in order. */
  lemma {:induction false} MeasuresAll(s: Sys, snrs: seq<Option<real>>) returns (moves: seq<Move>, t: Sys)
    requires AllAbout(s) && |snrs| == s.caller.count
    ensures Reaches(s, moves, t) && t.caller.phase.Finished? && AllWhole(s, t, snrs)
    decreases |s.caller.modes| - s.caller.at
  {
    if s.caller.at == |s.caller.modes| {
      moves, t := [], s;
      NoneLeft(s, snrs);
    } else {
      OneDone(s, snrs);
      var one := MeasuresOne(s, snrs);
      hide AllWhole, AllAbout, About, Reaches;
      var more;
      more, t := MeasuresAll(Measured(s, snrs), snrs);
      ReachesJoin(s, one, Measured(s, snrs), more, t);
      AllWholeOn(s, t, snrs);
      moves := one + more;
    }
  }

  /** And if the mode's burst fits a RESULT frame, the caller's row says that all of it came through. */
  lemma WholeReport(mode: Byte, count: nat, snrs: seq<Option<real>>)
    requires |snrs| == count <= SEQ_BITMAP_BITS
    ensures var r := Reported(mode, Through(mode, count, snrs));
      r.sent == count && r.decoded == count && r.near == 0 && r.missed == 0 && r.seqs == UpTo(count)
  {
  }
}
