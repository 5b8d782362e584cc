/**
 What the service's worker makes of everything it works on, turn by turn: the specification that the
 methods of class ModemService are proved against.
 */
module ServiceDesk {
  import opened Common
  import opened LinkStation
  import opened LinkMessages
  import opened LinkActs
  import opened LinkScript

  datatype Command =
    | StopWorker
    | SetListening(enabled: bool)
    | Dial(destination: string, newSid: nat)
    | HangUp
    | Abort

  /** A command, and what other threads write while it flushes and while it closes the link. */
  datatype Order = Order(command: Command, flushing: seq<Bytes>, closing: seq<Bytes>) {
    ghost predicate Valid() {
      && (command.Dial? ==> command.newSid > 0)
      && (forall w :: w in flushing ==> w != []) && (forall w :: w in closing ==> w != [])
    }
  }

  /** How a turn of the worker loop ends. */
  datatype Turned = GoOn | Finished | Crashed

  /**
   The link's station and script, and the service's own fields: whether it listens, how many messages it
   has placed that recv_message will hand back, the two queues, and how often it said that all was sent.
   */
  datatype Desk = Desk(st: Station, load: Load, stale: seq<bool>, listening: bool, early: nat,
                       inbound: seq<Bytes>, outbound: seq<Bytes>, drained: nat)

  /** How often the link keys a frame before it gives up, and after how many failures it steps down. */
  datatype Rig = Rig(retries: nat, after: nat)

  /** What a call ended, and the desk then. */
  datatype Called = Called(failed: bool, desk: Desk)
  datatype Obeyed = Obeyed(next: Turned, desk: Desk)

  function Inbox(d: Desk, inbox: seq<Arrival>): Desk {
    d.(load := d.load.(inbox := inbox))
  }

  function NewlyHeard(s: Station, t: Station): seq<Bytes> {
    if |s.heard| <= |t.heard| then t.heard[|s.heard|..] else []
  }

  /** One message through the link; what came in while the floor was asked for is placed. */
  ghost function Sends(d: Desk, data: Bytes, meanwhile: seq<Bytes>, rig: Rig): Called {
    if !Ready(d.st) then Called(true, d)
    else
      var run := MessageRun(d.st, data, d.load, d.stale, rig.retries, rig.after);
      var came, left := NewlyHeard(d.st, run.st), d.outbound + meanwhile;
      Called(!run.outcome.Sent?,
             d.(st := run.st, load := run.load, stale := run.stale, early := d.early + |came|,
                inbound := d.inbound + came, outbound := left,
                drained := d.drained + if run.outcome.Sent? && left == [] then 1 else 0))
  }

  /** A message placed early is handed back and not placed again; one that is complete now is placed. */
  function Receives(d: Desk, meanwhile: seq<Bytes>): Desk {
    var left := d.outbound + meanwhile;
    if d.st.pending != [] then
      d.(st := d.st.(pending := d.st.pending[1..]), early := if d.early > 0 then d.early - 1 else 0, outbound := left)
    else
      var run := ReceiveRun(InRecv(d.st), d.load.inbox, d.stale);
      Inbox(d, run.rest).(st := run.st, stale := run.stale, outbound := left,
                          inbound := d.inbound + if run.r.Message? then [run.r.bytes] else [])
  }

  /** A turn with the session up: all that is queued goes out as one message, or else the link receives. */
  ghost function Serves(d: Desk, meanwhile: seq<Bytes>, rig: Rig): Called {
    if d.outbound != [] then Sends(d.(outbound := []), Flat(d.outbound), meanwhile, rig)
    else Called(false, Receives(d, meanwhile))
  }

  function Parts(d: Desk, retries: nat): Desk {
    if d.st.state.CONNECTED? then Inbox(d, PartRun(d.load.inbox, retries).rest).(st := Gone(d.st))
    else d.(st := d.st.(state := IDLE))
  }

  function Recovers(d: Desk): Desk {
    if d.st.state.CONNECTED? then Parts(d, 1) else d
  }

  /** A new session: what the last left unread is dropped. */
  function StartsAnew(d: Desk): Desk {
    d.(listening := false, inbound := [], early := 0)
  }

  function Answers(d: Desk): Desk {
    var queue := Drained(d.load.inbox);
    var call, left := Found(queue, {KConnect}), Inbox(d, Rest(queue, {KConnect}));
    if call.Some? && call.value.Connect? && call.value.dst == d.st.call then
      StartsAnew(left).(st := Accept(d.st.(state := LISTENING, task := Task.Answering), call.value).st)
    else left.(st := d.st.(state := LISTENING))
  }

  function Dials(d: Desk, dst: string, sid: nat, rig: Rig): Desk {
    var called, run := InCall(d.st, dst, sid), CallRun(d.st.call, sid, Drained(d.load.inbox), rig.retries);
    Inbox(StartsAnew(d), run.rest).(
      st := if run.ack.Some? && run.ack.value.ConnectAck? then TakeConnectAck(called, run.ack.value)
            else called.(state := IDLE, sid := 0, task := Task.Resting))
  }

  ghost function Flushes(d: Desk, meanwhile: seq<Bytes>, rig: Rig): Called {
    if d.outbound != [] && d.st.state.CONNECTED? then Sends(d.(outbound := []), Flat(d.outbound), meanwhile, rig)
    else Called(false, d.(outbound := []))
  }

  /** The session ends, and what was not sent is dropped. */
  function Quits(d: Desk): Desk {
    Parts(d, 3).(outbound := [])
  }

  ghost function CarriesOut(d: Desk, o: Order, rig: Rig): Obeyed {
    match o.command
    case StopWorker => Obeyed(Finished, d)
    case SetListening(enabled) => Obeyed(GoOn, d.(listening := enabled))
    case Dial(dst, sid) => Obeyed(GoOn, Dials(d, dst, sid, rig))
    case HangUp =>
      var flushed := Flushes(d.(listening := false), o.flushing, rig);
      if flushed.failed then Obeyed(Crashed, flushed.desk) else Obeyed(GoOn, Quits(flushed.desk))
    case Abort => Obeyed(GoOn, Quits(d.(listening := false, outbound := [])))
  }

  /** Commands in order, up to the first that ends the worker. */
  ghost function CarriesOutAll(d: Desk, orders: seq<Order>, rig: Rig): Obeyed {
    if orders == [] then Obeyed(GoOn, d)
    else
      var init := CarriesOutAll(d, orders[..|orders| - 1], rig);
      if init.next.GoOn? then CarriesOut(init.desk, orders[|orders| - 1], rig) else init
  }

  /** The link's part of a turn. */
  ghost function Works(d: Desk, meanwhile: seq<Bytes>, rig: Rig): Desk {
    if d.st.state.CONNECTED? then
      var served := Serves(d, meanwhile, rig);
      if served.failed then Recovers(served.desk) else served.desk
    else if d.listening then Answers(d)
    else d
  }

  ghost function TakesTurn(d: Desk, orders: seq<Order>, meanwhile: seq<Bytes>, rig: Rig): Obeyed {
    var obeyed := CarriesOutAll(d, orders, rig);
    if obeyed.next.GoOn? then Obeyed(GoOn, Works(obeyed.desk, meanwhile, rig)) else obeyed
  }

  ghost function Runs(d: Desk, script: seq<(seq<Order>, seq<Bytes>)>, rig: Rig): Obeyed {
    if script == [] then Obeyed(GoOn, d)
    else
      var init, last := Runs(d, script[..|script| - 1], rig), script[|script| - 1];
      if init.next.GoOn? then TakesTurn(init.desk, last.0, last.1, rig) else init
  }

  /** The worker is done: a session still up is ended, if it stops gracefully. */
  function Stops(d: Desk, graceful: bool): Desk {
    if d.st.state.CONNECTED? && graceful then Parts(d, 1) else d
  }

  /** Either a message already placed is handed back, or the link waits for what comes. */
  lemma ReceivesIs(d: Desk)
    ensures var e := Receives(d, []).(outbound := d.outbound);
      if d.st.pending != [] then
        e == d.(st := d.st.(pending := d.st.pending[1..]), early := if d.early > 0 then d.early - 1 else 0)
      else
        var run := ReceiveRun(InRecv(d.st), d.load.inbox, d.stale);
        e == Inbox(d, run.rest).(st := run.st, stale := run.stale,
                                 inbound := d.inbound + if run.r.Message? then [run.r.bytes] else [])
  {
    hide ReceiveRun, InRecv;
  }

  lemma CarriesOutOne(d: Desk, orders: seq<Order>, i: nat, rig: Rig)
    requires i < |orders| && CarriesOutAll(d, orders[..i], rig).next.GoOn?
    ensures CarriesOutAll(d, orders[..i + 1], rig)
         == CarriesOut(CarriesOutAll(d, orders[..i], rig).desk, orders[i], rig)
  {
    assert orders[..i + 1][..i] == orders[..i];
    hide CarriesOut;
  }

  /** Whatever comes after a command that ends the worker is left. */
  lemma {:induction false} CarriesOutNoMore(d: Desk, orders: seq<Order>, i: nat, rig: Rig)
    requires i <= |orders| && !CarriesOutAll(d, orders[..i], rig).next.GoOn?
    ensures CarriesOutAll(d, orders, rig) == CarriesOutAll(d, orders[..i], rig)
    decreases |orders|
  {
    hide CarriesOut;
    if i == |orders| {
      assert orders[..i] == orders;
    } else {
      var init := orders[..|orders| - 1];
      assert init[..i] == orders[..i];
      CarriesOutNoMore(d, init, i, rig);
    }
  }

  lemma RunsOne(d: Desk, script: seq<(seq<Order>, seq<Bytes>)>, i: nat, rig: Rig)
    requires i < |script|
    ensures var init := Runs(d, script[..i], rig);
      Runs(d, script[..i + 1], rig)
        == if init.next.GoOn? then TakesTurn(init.desk, script[i].0, script[i].1, rig) else init
  {
    assert script[..i + 1][..i] == script[..i];
    hide TakesTurn;
  }

  // -- what a turn comes to --------------------------------------------------------------------

  /** A send whose call succeeds has the whole message acknowledged. */
  lemma {:induction false} SendsAll(s: Station, w: Load, retries: nat, after: nat)
    requires AtChunk(s)
    ensures var run := SendRun(s, w, retries, after);
      && (run.outcome.Sent? ==> run.st.sent == s.sent + [s.task.data] && run.st.heard == s.heard
                                && run.st.state == s.state && run.st.task.Resting?)
    decreases |s.task.data| - s.task.offset, s.reg.Index(s.tx.id)
  {
    hide ArqRun, Leant, Lean, CutAt, Registry.Valid, Registry.Index, RememberMode, StepMode;
    ChunkFacts(s);
    var cut := CutNow(s);
    var run := ArqRun(cut, w.inbox, w.failures, retries, after);
    var left := w.(inbox := run.rest, failures := run.failures);
    ArqLadder(cut, w.inbox, w.failures, retries, after);
    OnwardFacts(cut, run.tx, left);
    OnwardKeeps(cut, run.tx, left);
    hide Onward;
    if run.result.Resize? {
      SendsAll(cut.(tx := run.tx), left, retries, after);
    } else if run.result.Acked? && !cut.hand.value.eof {
      SendsAll(Onward(cut, run.tx, left), Leant(left, run.tx == s.tx), retries, after);
    }
  }

  lemma OnwardKeeps(s: Station, tx: Mode, w: Load)
    requires s.task.Sending? && s.hand.Some?
    ensures Onward(s, tx, w).heard == s.heard && Onward(s, tx, w).state == s.state
  {
    hide RememberMode, Lean, Registry.Step;
  }

  /**
   What is written goes out: where the floor comes and every chunk is acknowledged, one turn sends all that
   was queued as one message, and says that everything has been sent if nothing was written meanwhile.
   */
  lemma WrittenIsSent(d: Desk, meanwhile: seq<Bytes>, rig: Rig)
    requires Ready(d.st) && d.outbound != [] && rig.retries > 0 && AllSmooth(d.st, Flat(d.outbound), d.load)
    ensures var e := Works(d, meanwhile, rig);
      && e.st.sent == d.st.sent + [Flat(d.outbound)] && e.outbound == meanwhile && e.st.state == CONNECTED
      && e.drained == d.drained + if meanwhile == [] then 1 else 0
  {
    var s, data := d.st, Flat(d.outbound);
    SmoothMessage(s, data, d.load, d.stale, rig.retries, rig.after);
    hide SendRun, CutAt, Registry.Valid, Smooth, Found, Rest, Halfway, NewlyHeard;
    assert [] + meanwhile == meanwhile;
    if s.role.ISS? {
      SendsAll(BeginSending(WithMessage(s, data), data), d.load, rig.retries, rig.after);
    } else {
      GrantTaken(AskingFor(s, data), d.load.inbox, d.stale, rig.retries);
      hide FloorRun;
      SendsAll(BeginSending(AskingFor(s, data), data), d.load.(inbox := Rest(d.load.inbox, FLOORS)), rig.retries,
               rig.after);
    }
  }

  /** A turn whose link call fails leaves no session. */
  lemma FailureEnds(d: Desk, meanwhile: seq<Bytes>, rig: Rig)
    requires d.st.state.CONNECTED? && Serves(d, meanwhile, rig).failed
    ensures !Works(d, meanwhile, rig).st.state.CONNECTED?
  {
    hide Serves;
  }

  /** However a session is closed, nothing that was placed for the application is taken back. */
  lemma ClosingKeepsInbound(d: Desk, o: Order, rig: Rig)
    requires o.command.HangUp? || o.command.Abort?
    ensures var e := CarriesOut(d, o, rig);
      && d.inbound <= e.desk.inbound && d.early <= e.desk.early
      && (e.next.GoOn? ==> e.desk.st.state == IDLE && e.desk.outbound == [])
      && (o.command.Abort? ==> e.desk.st.given == d.st.given)
  {
    hide MessageRun, PartRun;
  }
}
