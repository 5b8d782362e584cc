/**
 The modem service around one link: bytes written by the application go out as messages, messages
 that arrive are placed for the application the moment they are complete. One worker thread runs the
 link; writes by other threads may land while it is inside a link call. What was placed stays to be
 read when the session has ended, until the next one begins.
 */
module Service {
  import opened Common
  import opened LinkStation
  import opened LinkNet
  import opened LinkRuns
  import opened LinkMessages
  import opened LinkHistory
  import opened LinkTerms
  import opened LinkTheorems
  import opened LinkActs
  import opened LinkObject
  import opened LinkScript
  import opened ServiceDesk

  lemma {:induction false} FlatMany(a: seq<Bytes>, b: seq<Bytes>)
    ensures Flat(a + b) == Flat(a) + Flat(b)
  {
    if b == [] {
      assert a + b == a;
    } else {
      assert (a + b)[..|a + b| - 1] == a + b[..|b| - 1];
      FlatMany(a, b[..|b| - 1]);
    }
  }

  class ModemService {
    const link: Link
    var listening: bool
    var deliveredEarly: nat
    var inbound: seq<Bytes>
    var outbound: seq<Bytes>
    /** How often the application was told that everything it wrote has been confirmed. */
    var drained: nat

    /** Whether what follows is about the link's last session: not while a call is being tried, or has failed. */
    ghost var live: bool
    /** Placed on inbound and fetched from it; what outbound held as it began, what was written, what was dropped. */
    ghost var placed: seq<Bytes>
    ghost var fetched: seq<Bytes>
    ghost var carried: Bytes
    ghost var written: Bytes
    ghost var lost: Bytes

    /** All the worker works on. */
    ghost function At(): Desk
      reads this, link
    {
      Desk(link.st, Load(link.inbox, link.failures, link.hunches), link.stale, listening, deliveredEarly, inbound,
           outbound, drained)
    }

    ghost function Kit(): Rig {
      Rig(link.maxRetries, link.stepDownAfter)
    }

    /** Every message the link delivered is placed once. */
    ghost predicate PlacedOnce()
      reads this, link
    {
      deliveredEarly == |link.st.pending| && placed == link.st.heard && placed == fetched + inbound
    }

    /** Every byte written has been given to the link, was dropped, or waits, in this order. */
    ghost predicate Streams()
      reads this, link
    {
      Flat(link.st.given) + lost + Flat(outbound) == carried + written
    }

    ghost predicate Accounts()
      reads this, link
    {
      && (live ==> PlacedOnce() && Streams()) && (forall w :: w in outbound ==> w != [])
      && (link.st.state == CONNECTED ==> live)
    }

    /** And nothing is dropped while the session is up. */
    ghost predicate Accounted()
      reads this, link
    {
      Accounts() && (link.st.state == CONNECTED ==> lost == [])
    }

    ghost predicate Ready()
      reads this, link
    {
      link.Valid() && link.raised == [] && link.st.task.Resting?
    }

    /** A link call has failed: the session is over, or the call has left it to be ended. */
    ghost predicate Broken()
      reads this, link
    {
      && link.Valid() && link.raised == [] && Accounted()
      && (if link.st.state == CONNECTED then link.st.task.Failed? else link.st.task.Resting?)
    }

    /** What holds at every turn of the worker loop. */
    ghost predicate Valid()
      reads this, link
    {
      Ready() && Accounted()
    }

    constructor (link: Link)
      requires link.Valid() && link.raised == [] && link.st.task.Resting? && link.st.state == IDLE
      ensures Valid() && this.link == link && inbound == [] && outbound == []
    {
      this.link := link;
      listening, deliveredEarly, inbound, outbound, drained := true, 0, [], [], 0;
      live, placed, fetched, carried, written, lost := false, [], [], [], [], [];
    }

    // -- the application's side ----------------------------------------------------------

    method Write(data: Bytes) returns (ok: bool)
      requires Valid()
      modifies this`outbound, this`written
      ensures Valid()
      ensures ok <==> data == [] || link.st.state == CONNECTED
      ensures outbound == old(outbound) + (if ok && data != [] then [data] else [])
      ensures written == old(written) + (if ok then data else [])
    {
      if data == [] {
        return true;
      }
      link.Fields();
      if link.state != CONNECTED {
        return false;
      }
      Land([data]);
      FlatMore([], data);
      return true;
    }

    method Read() returns (data: Option<Bytes>)
      requires Valid()
      modifies this`inbound, this`fetched
      ensures Valid()
      ensures data == if old(inbound) == [] then None else Some(old(inbound)[0])
      ensures inbound == if data.None? then [] else old(inbound)[1..]
    {
      if inbound == [] {
        return None;
      }
      data := Some(inbound[0]);
      fetched := fetched + [inbound[0]];
      inbound := inbound[1..];
    }

    /** Writes that land on the queue. */
    method Land(writes: seq<Bytes>)
      modifies this`outbound, this`written
      ensures outbound == old(outbound) + writes && written == old(written) + Flat(writes)
      ensures old(Streams()) ==> Streams()
    {
      FlatMany(outbound, writes);
      assert carried + (written + Flat(writes)) == (carried + written) + Flat(writes);
      Joins(Flat(link.st.given), lost, Flat(outbound), Flat(writes));
      outbound := outbound + writes;
      written := written + Flat(writes);
    }

    // -- the link's events -----------------------------------------------------------------

    /** A message is complete: it is placed at once, and expected again from recv_message. */
    method OnLinkEvent(data: Bytes)
      modifies this`inbound, this`deliveredEarly, this`placed
      ensures inbound == old(inbound) + [data] && deliveredEarly == old(deliveredEarly) + 1
          && placed == old(placed) + [data]
    {
      inbound := inbound + [data];
      deliveredEarly := deliveredEarly + 1;
      placed := placed + [data];
    }

    /** The events a link call raised. */
    method TakeEvents()
      requires link.Valid()
      modifies this`inbound, this`deliveredEarly, this`placed, link`raised
      ensures link.Valid() && link.raised == []
      ensures inbound == old(inbound) + old(link.raised) && placed == old(placed) + old(link.raised)
      ensures deliveredEarly == old(deliveredEarly) + |old(link.raised)|
    {
      while link.raised != []
        invariant link.Valid() && |link.raised| <= |old(link.raised)|
        invariant var n := |old(link.raised)| - |link.raised|;
          && link.raised == old(link.raised)[n..] && deliveredEarly == old(deliveredEarly) + n
          && inbound == old(inbound) + old(link.raised)[..n] && placed == old(placed) + old(link.raised)[..n]
        decreases |link.raised|
      {
        OnLinkEvent(link.raised[0]);
        link.raised := link.raised[1..];
      }
    }

    // -- sessions --------------------------------------------------------------------------

    /** Drops what the last session left unread. What it left unsent stays, and goes out in this one. */
    method BeginSession()
      modifies this`inbound, this`deliveredEarly, this`live, this`placed, this`fetched, this`carried, this`written,
          this`lost
      ensures inbound == [] && deliveredEarly == 0 && placed == [] && fetched == [] && !live
      ensures carried == Flat(outbound) && written == [] && lost == []
    {
      inbound := [];
      deliveredEarly := 0;
      live, placed, fetched, carried, written, lost := false, [], [], Flat(outbound), [], [];
    }

    /** Drops what was not sent. */
    method EndSession()
      modifies this`outbound, this`lost
      ensures outbound == [] && lost == old(lost) + Flat(old(outbound))
      ensures old(Streams()) ==> Streams()
    {
      Drops(Flat(link.st.given), lost, Flat(outbound));
      lost := lost + Flat(outbound);
      outbound := [];
    }

    /** The session that has just begun carries over just what outbound holds, so nothing exactly when it is empty. */
    ghost method Open()
      requires link.Valid() && link.raised == [] && Opened(link.st) && !live
      requires inbound == [] && deliveredEarly == 0 && placed == [] && fetched == []
      requires carried == Flat(outbound) && written == [] && lost == [] && forall w :: w in outbound ==> w != []
      modifies this`live
      ensures Valid() && live && (carried == [] <==> outbound == [])
    {
      live := true;
      NonemptyFlat(outbound);
      assert Flat([]) == [];
      assert [] + [] + Flat(outbound) == Flat(outbound) + [];
    }

    method Dial(destination: string, newSid: nat) returns (ok: bool)
      requires Valid() && newSid > 0
      modifies this, link
      ensures Valid() && (ok <==> link.st.state == CONNECTED) && outbound == old(outbound)
      ensures ok ==>
        placed == [] && written == [] && carried == Flat(outbound) && (carried == [] <==> old(outbound) == [])
      ensures At() == Dials(old(At()), destination, newSid, Kit())
    {
      hide Link.Valid, InCall, TakeConnectAck, CallRun, Drained, Flat, Opened;
      listening := false;
      BeginSession();
      ok := Ring(destination, newSid);
      if ok { Open(); }
    }

    /** The call itself. */
    method Ring(destination: string, newSid: nat) returns (ok: bool)
      requires link.Valid() && link.st.task.Resting? && newSid > 0
      modifies link
      ensures link.Valid() && link.raised == old(link.raised)
      ensures if ok then Opened(link.st) && link.st.state == CONNECTED
              else link.st.state == IDLE && link.st.task.Resting?
      ensures var d := old(At());
        var run := CallRun(d.st.call, newSid, Drained(d.load.inbox), link.maxRetries);
        && (ok <==> run.ack.Some? && run.ack.value.ConnectAck?) && At() == Inbox(d, run.rest).(st := link.st)
        && link.st == (if ok then TakeConnectAck(InCall(d.st, destination, newSid), run.ack.value)
                       else InCall(d.st, destination, newSid).(state := IDLE, sid := 0, task := Resting))
    {
      ghost var d := At();
      hide Link.Valid, InCall, TakeConnectAck, CallRun, Drained, Took, Copies;
      ghost var ack;
      ok, ack := link.Connect(destination, link.maxRetries, newSid);
      assert ok ==> link.st.state == CONNECTED;
    }

    method Answer() returns (ok: bool)
      requires Valid() && link.st.state != CONNECTED
      modifies this, link
      ensures Valid() && (ok <==> link.st.state == CONNECTED) && outbound == old(outbound)
      ensures ok ==>
        placed == [] && written == [] && carried == Flat(outbound) && (carried == [] <==> old(outbound) == [])
      ensures var call := Found(Drained(old(link.inbox)), {KConnect});
        && (ok <==> call.Some? && call.value.Connect? && call.value.dst == link.call)
        && link.inbox == Rest(Drained(old(link.inbox)), {KConnect}) && link.stale == old(link.stale)
        && (ok ==> link.st.pending == [] && link.st.given == [])
      ensures At() == Answers(old(At()))
    {
      link.Fields();
      hide Link.Valid, Accept, Found, Rest, Drained, Flat, Opened, Took, ModemService.PlacedOnce, Streams;
      ok := Await();
      if ok { Admit(); }
    }

    /** Listening for one call. */
    method Await() returns (ok: bool)
      requires link.Valid() && link.raised == [] && link.st.task.Resting? && link.st.state != CONNECTED
      modifies link
      ensures link.Valid() && link.raised == []
      ensures if ok then Opened(link.st) && link.st.state == CONNECTED
              else link.st.state == LISTENING && link.st.task.Resting? && SameMail(old(link.st), link.st)
      ensures var d := old(At());
        var queue := Drained(d.load.inbox);
        var call := Found(queue, {KConnect});
        && (ok <==> call.Some? && call.value.Connect? && call.value.dst == d.st.call)
        && At() == Inbox(d, Rest(queue, {KConnect})).(st := link.st)
        && link.st == (if ok then Accept(d.st.(state := LISTENING, task := Answering), call.value).st
                       else d.st.(state := LISTENING))
    {
      ghost var d := At();
      hide Link.Valid, Accept, Found, Rest, Drained, Took;
      var caller := link.ListenOnce();
      ok := caller != None;
    }

    /** The session that listening led to begins. */
    method Admit()
      requires link.Valid() && link.raised == [] && Opened(link.st) && forall w :: w in outbound ==> w != []
      modifies this
      ensures Valid() && outbound == old(outbound) && placed == [] && written == [] && link.st.pending == []
          && link.st.given == []
      ensures At() == StartsAnew(old(At()))
      ensures carried == Flat(outbound) && (carried == [] <==> outbound == [])
    {
      hide Link.Valid, Flat;
      AcceptsFor(link.st);
      listening := false;
      BeginSession();
      Open();
    }

    // -- the worker ------------------------------------------------------------------------

    /** One message through the link, and the events that came with it. */
    method Deliver(data: Bytes) returns (failed: bool)
      requires Ready() && link.st.state == CONNECTED && PlacedOnce() && live && lost == []
      requires Flat(link.st.given) + data + Flat(outbound) == carried + written && forall w :: w in outbound ==> w != []
      modifies this`inbound, this`deliveredEarly, this`placed, link
      ensures if failed then Broken() else Valid() && link.st.state == CONNECTED
      ensures link.st.given == old(link.st.given) + [data]
      ensures !failed ==> link.st.sent == old(link.st.sent) + [data]
      ensures LinkScript.Ready(old(link.st))
      ensures var d := old(At());
        var run := MessageRun(d.st, data, d.load, d.stale, Kit().retries, Kit().after);
        && (failed <==> !run.outcome.Sent?) && link.st == run.st && At().load == run.load && link.stale == run.stale
        && inbound == d.inbound + NewlyHeard(d.st, run.st) && deliveredEarly == d.early + |NewlyHeard(d.st, run.st)|
    {
      hide Link.Valid, Carried, KeyedWithin, HandsUp, MessageRun, NewlyHeard;
      ghost var s0 := link.st;
      FlatMore(s0.given, data);
      NoFlat(Flat(s0.given) + data, Flat(outbound));
      hide Flat;
      failed := Message(data);
      Appends(fetched, inbound, link.raised);
      TakeEvents();
      assert PlacedOnce() by { hide Streams; }
      assert Streams() by { hide PlacedOnce; }
      hide PlacedOnce, Streams;
    }

    /** The link call itself, its events still to be taken. */
    method Message(data: Bytes) returns (failed: bool)
      requires Ready() && link.st.state == CONNECTED
      modifies link
      ensures link.Valid() && link.st.given == old(link.st.given) + [data]
      ensures link.st.heard == old(link.st.heard) + link.raised && link.st.pending == old(link.st.pending) + link.raised
      ensures if failed then if link.st.state == CONNECTED then link.st.task.Failed? else link.st.task.Resting?
              else link.st.task.Resting? && link.st.state == CONNECTED && link.st.sent == old(link.st.sent) + [data]
      ensures LinkScript.Ready(old(link.st))
      ensures var run := MessageRun(old(link.st), data, old(At()).load, old(link.stale), Kit().retries, Kit().after);
        && (failed <==> !run.outcome.Sent?) && link.st == run.st && At().load == run.load && link.stale == run.stale
      ensures link.raised == NewlyHeard(old(link.st), link.st)
    {
      hide Link.Valid, Carried, KeyedWithin, MessageRun, Took;
      ghost var s0 := link.st;
      var r := link.SendMessage(data);
      HandsUpMeans(s0.(given := s0.given + [data]), link.st, link.raised);
      if r == Outcome.Sent { CarriedSent(s0, link.st, data); }
      failed := r != Outcome.Sent;
    }

    /** One send; `meanwhile` is written by other threads while the link is at it. */
    method SendOutbound(data: Bytes, meanwhile: seq<Bytes>) returns (failed: bool)
      requires Ready() && link.st.state == CONNECTED && PlacedOnce() && live && lost == []
      requires Flat(link.st.given) + data + Flat(outbound) == carried + written
          && forall w :: w in outbound + meanwhile ==> w != []
      modifies this`inbound, this`outbound, this`deliveredEarly, this`drained, this`placed, this`written, link
      ensures if failed then Broken() else Valid() && link.st.state == CONNECTED
      ensures drained == old(drained) + (if !failed && old(outbound) + meanwhile == [] then 1 else 0)
      ensures outbound == old(outbound) + meanwhile && link.st.given == old(link.st.given) + [data]
      ensures !failed ==> link.st.sent == old(link.st.sent) + [data]
      ensures Called(failed, At()) == Sends(old(At()), data, meanwhile, Kit())
    {
      hide Link.Valid, Flat, MessageRun, NewlyHeard;
      assert forall w :: w in outbound || w in meanwhile ==> w in outbound + meanwhile;
      failed := Deliver(data);
      Land(meanwhile);
      if !failed && outbound == [] {
        drained := drained + 1;
      }
    }

    /** Everything queued goes out as one message if the session is still up, and is dropped if it is not. */
    method FlushOutbound(meanwhile: seq<Bytes>) returns (failed: bool)
      requires Valid() && forall w :: w in meanwhile ==> w != []
      modifies this`inbound, this`outbound, this`deliveredEarly, this`drained, this`placed, this`written, this`lost,
          link
      ensures if failed then Broken() else Valid()
      ensures var sends := old(outbound) != [] && old(link.st.state) == CONNECTED;
        && outbound == (if sends then meanwhile else []) && (failed ==> sends)
        && link.st.given == old(link.st.given) + (if sends then [Flat(old(outbound))] else [])
        && (sends && !failed ==> link.st.sent == old(link.st.sent) + [Flat(old(outbound))])
        && (old(link.st.state) != CONNECTED ==> lost == old(lost) + Flat(old(outbound)))
      ensures Called(failed, At()) == Flushes(old(At()), meanwhile, Kit())
    {
      hide Link.Valid;
      link.Fields();
      var chunks := outbound;
      failed := false;
      NoFlat(Flat(link.st.given), Flat(outbound));
      assert link.st.given + [] == link.st.given;
      if chunks != [] && link.state == CONNECTED {
        outbound := [];
        failed := SendOutbound(Flat(chunks), meanwhile);
      } else {
        EndSession();
        if old(link.st.state) == CONNECTED { assert Flat(old(outbound)) == []; }
      }
    }

    /** One turn with the session up: send what is queued, or else receive. */
    method ServiceConnected(meanwhile: seq<Bytes>) returns (failed: bool)
      requires Valid() && link.st.state == CONNECTED && forall w :: w in meanwhile ==> w != []
      modifies this`inbound, this`outbound, this`deliveredEarly, this`drained, this`placed, this`written, link
      ensures if failed then Broken() else Valid()
      ensures outbound == meanwhile
      ensures link.st.given == old(link.st.given) + (if old(outbound) != [] then [Flat(old(outbound))] else [])
      ensures old(outbound) == [] ==> !failed && drained == old(drained)
      ensures Called(failed, At()) == Serves(old(At()), meanwhile, Kit())
    {
      hide Link.Valid;
      assert link.st.given + [] == link.st.given;
      if outbound != [] {
        var chunks := outbound;
        NoFlat(Flat(link.st.given), Flat(outbound));
        outbound := [];
        failed := SendOutbound(Flat(chunks), meanwhile);
        return;
      }
      Receive(meanwhile);
      failed := false;
    }

    /**
     recv_message hands back what was placed early, and only then is the count brought down again; that
     the count is never zero then is why no message is placed twice.
     */
    method Receive(meanwhile: seq<Bytes>)
      requires Valid() && link.st.state == CONNECTED && forall w :: w in meanwhile ==> w != []
      modifies this`inbound, this`outbound, this`deliveredEarly, this`placed, this`written, link
      ensures Valid() && outbound == old(outbound) + meanwhile && link.st.given == old(link.st.given)
      ensures old(link.st.pending) == [] && DiscWaits(old(link.inbox), old(link.stale)) ==>
        link.st.state == IDLE && link.inbox == old(link.inbox)[1..]
      ensures At() == Receives(old(At()), meanwhile)
    {
      hide Link.Valid, Flat, DiscWaits, ReceiveRun, InRecv;
      Fetch();
      Land(meanwhile);
      hide ModemService.PlacedOnce, Streams;
    }

    /** recv_message, and what it brings. */
    method Fetch()
      requires Valid() && link.st.state == CONNECTED
      modifies this`inbound, this`deliveredEarly, this`placed, link
      ensures Valid() && link.st.given == old(link.st.given)
      ensures old(link.st.pending) == [] && DiscWaits(old(link.inbox), old(link.stale)) ==>
        link.st.state == IDLE && link.inbox == old(link.inbox)[1..]
      ensures At() == Receives(old(At()), []).(outbound := outbound)
    {
      hide Link.Valid, Flat, DiscWaits, ReceiveRun, InRecv;
      ReceivesIs(At());
      NoneAdded(inbound, placed);
      Appends(fetched, inbound, link.raised);
      var message := Collect();
      Appends(fetched, inbound, link.raised);
      TakeEvents();
      if message {
        assert deliveredEarly > 0;
        deliveredEarly := deliveredEarly - 1;
      }
      hide Receives;
    }

    /** The link call, its events still to be taken. */
    method Collect() returns (message: bool)
      requires Ready() && link.st.state == CONNECTED
      modifies link
      ensures link.Valid() && link.st.task.Resting? && link.st.given == old(link.st.given)
      ensures link.st.heard == old(link.st.heard) + link.raised
      ensures |link.st.pending| + (if message then 1 else 0) == |old(link.st.pending)| + |link.raised|
      ensures old(link.st.pending) == [] && DiscWaits(old(link.inbox), old(link.stale)) ==>
        link.st.state == IDLE && link.inbox == old(link.inbox)[1..]
      ensures var d := old(At());
        if d.st.pending != [] then
          At() == d.(st := d.st.(pending := d.st.pending[1..])) && link.raised == [] && message
        else
          var run := ReceiveRun(InRecv(d.st), d.load.inbox, d.stale);
          && At() == Inbox(d, run.rest).(st := run.st, stale := run.stale) && message == run.r.Message?
          && link.raised == if run.r.Message? then [run.r.bytes] else []
    {
      hide Link.Valid, DiscWaits, ReceiveRun, InRecv, Took, Added, Only;
      assert link.st.heard + [] == link.st.heard;
      var r := link.RecvMessage();
      message := r.Message?;
    }

    /** A failed link call with the session still up ends the session. */
    method Recover()
      requires Broken()
      modifies link
      ensures Valid() && link.st.state != CONNECTED
      ensures At() == Recovers(old(At()))
    {
      hide Link.Valid, Gone;
      link.Fields();
      GoneFields(link.st);
      if link.state == CONNECTED {
        var _ := link.Disconnect(1);
      }
    }

    /** Ends the session; `meanwhile` is written while the link is closing, and dropped with the rest. */
    method Quit(meanwhile: seq<Bytes>)
      requires Ready() && Accounts() && forall w :: w in meanwhile ==> w != []
      modifies this`outbound, this`written, this`lost, link
      ensures Valid() && link.st.state == IDLE && outbound == [] && link.st.given == old(link.st.given)
      ensures lost == old(lost) + Flat(old(outbound) + meanwhile)
      ensures old(link.st.state) == CONNECTED ==>
        DiscKeyed(link.air) == DiscKeyed(old(link.air)) + PartRun(old(link.inbox), 3).keyed
      ensures At() == Quits(old(At())) && DataKeyed(link.air) == DataKeyed(old(link.air))
    {
      hide Link.Valid, Gone, Flat, Took, Added, PartRun, DiscKeyed, AskKeyed, DataKeyed, Only;
      link.Fields();
      GoneFields(link.st);
      var _ := link.Disconnect(3);
      Land(meanwhile);
      EndSession();
    }

    method DoCommand(o: Order) returns (next: Turned)
      requires Valid() && o.Valid()
      modifies this, link
      ensures next.GoOn? || next.Finished? ==> Valid()
      ensures next.Crashed? ==> Broken() && o.command.HangUp?
      ensures o.command.HangUp? || o.command.Abort? ==> next.Crashed? || (link.st.state == IDLE && outbound == [])
      ensures Obeyed(next, At()) == CarriesOut(old(At()), o, Kit())
      ensures o.command.Abort? ==> DataKeyed(link.air) == DataKeyed(old(link.air))
    {
      hide Link.Valid;
      next := GoOn;
      match o.command
      case StopWorker => return Finished;
      case SetListening(enabled) => listening := enabled;
      case Dial(destination, newSid) => var _ := Dial(destination, newSid);
      case HangUp =>
        var failed := CloseSent(o.flushing, o.closing);
        if failed {
          return Crashed;
        }
      case Abort =>
        CloseUnsent(o.closing);
    }

    /** What is queued is sent, if it can be, before the session ends. */
    method CloseSent(flushing: seq<Bytes>, closing: seq<Bytes>) returns (failed: bool)
      requires Valid() && (forall w :: w in flushing ==> w != []) && forall w :: w in closing ==> w != []
      modifies this, link
      ensures if failed then Broken() else Valid() && link.st.state == IDLE && outbound == []
      ensures var flushed := Flushes(old(At()).(listening := false), flushing, Kit());
        && failed == flushed.failed && At() == if failed then flushed.desk else Quits(flushed.desk)
    {
      hide Link.Valid, Flushes, Quits, Flat;
      listening := false;
      failed := FlushOutbound(flushing);
      if !failed { Quit(closing); }
    }

    /** What is queued is dropped before the session ends. */
    method CloseUnsent(closing: seq<Bytes>)
      requires Valid() && forall w :: w in closing ==> w != []
      modifies this, link
      ensures Valid() && link.st.state == IDLE && outbound == []
      ensures At() == Quits(old(At()).(listening := false, outbound := []))
      ensures DataKeyed(link.air) == DataKeyed(old(link.air))
    {
      hide Link.Valid, Quits, Flat;
      listening := false;
      EndSession();
      Quit(closing);
    }

    /** A failing flush is not caught here: it ends the worker. */
    method DrainCommands(orders: seq<Order>) returns (next: Turned)
      requires Valid() && forall o :: o in orders ==> o.Valid()
      modifies this, link
      ensures if next.Crashed? then Broken() else Valid()
      ensures Obeyed(next, At()) == CarriesOutAll(old(At()), orders, Kit())
    {
      hide Link.Valid, CarriesOut, ModemService.Accounted, ModemService.Ready;
      next := GoOn;
      for i := 0 to |orders|
        invariant Valid() && next == GoOn
        invariant Obeyed(GoOn, At()) == CarriesOutAll(old(At()), orders[..i], Kit())
      {
        assert orders[i] in orders;
        CarriesOutOne(old(At()), orders, i, Kit());
        next := DoCommand(orders[i]);
        if next != GoOn {
          CarriesOutNoMore(old(At()), orders, i + 1, Kit());
          return;
        }
      }
      assert orders[..|orders|] == orders;
    }

    /** One turn of the worker loop. */
    method RunOnce(orders: seq<Order>, meanwhile: seq<Bytes>) returns (next: Turned)
      requires Valid() && (forall w :: w in meanwhile ==> w != []) && forall o :: o in orders ==> o.Valid()
      modifies this, link
      ensures if next.Crashed? then Broken() else Valid()
      ensures Obeyed(next, At()) == TakesTurn(old(At()), orders, meanwhile, Kit())
    {
      hide Link.Valid;
      next := DrainCommands(orders);
      if next != GoOn {
        return;
      }
      link.Fields();
      if link.state == CONNECTED {
        var failed := ServiceConnected(meanwhile);
        if failed {
          Recover();
        }
      } else if listening {
        var _ := Answer();
      }
    }

    /** The worker: turns until told to stop, then a parting disconnect. */
    method Run(script: seq<(seq<Order>, seq<Bytes>)>, graceful: bool)
      requires Valid()
      requires forall i, o :: 0 <= i < |script| && o in script[i].0 ==> o.Valid()
      requires forall i, w :: 0 <= i < |script| && w in script[i].1 ==> w != []
      modifies this, link
      ensures if graceful then Valid() && link.st.state != CONNECTED else Valid() || Broken()
      ensures At() == Stops(Runs(old(At()), script, Kit()).desk, graceful)
    {
      hide Link.Valid, Gone, TakesTurn;
      var next := GoOn;
      for i := 0 to |script|
        invariant if next.Crashed? then Broken() else Valid()
        invariant Obeyed(next, At()) == Runs(old(At()), script[..i], Kit())
      {
        RunsOne(old(At()), script, i, Kit());
        if next == GoOn {
          next := RunOnce(script[i].0, script[i].1);
        }
      }
      assert script[..|script|] == script;
      hide ModemService.Accounted;
      Finish(graceful);
    }

    /** The worker is done: a session still up is ended, if it stops gracefully. */
    method Finish(graceful: bool)
      requires Valid() || Broken()
      modifies this, link
      ensures if graceful then Valid() && link.st.state != CONNECTED else Valid() || Broken()
      ensures At() == Stops(old(At()), graceful)
    {
      hide Link.Valid, Gone, PartRun, Took, Only, DataKeyed, DiscKeyed, AskKeyed;
      link.Fields();
      GoneFields(link.st);
      if link.state == CONNECTED && graceful {
        var _ := link.Disconnect(1);
      }
    }
  }

  // -- end to end -----------------------------------------------------------------------------

  /** What the chronicle of a run says of the two objects whose acts the run is. */
  lemma LastSession(a: Link, b: Link, n0: Net, moves: seq<Move>, n: Net) returns (c: Chronicle)
    requires a.Valid() && b.Valid() && Start(n0) && Reaches(n0, moves, n)
    requires n0.me == a.origin && n0.you == b.origin && MyActs(moves) == a.acts && YourActs(moves) == b.acts
    ensures Recounts(n0, moves, c) && c.net == n && n.me == a.st && n.you == b.st
    ensures c.mySid == c.yourSid > 0 && c.mySid !in c.blurred ==>
      && b.st.heard <= a.st.given
      && ((c.mySid !in c.parted || SameControl(n0)) && a.st.given == a.st.sent ==> b.st.heard == a.st.given)
    ensures a.st.state == CONNECTED && a.st.task.Resting? ==> a.st.given == a.st.sent
  {
    ObjectsRun(a, b, n0, moves, n);
    hide Link.Valid, Reaches, MyActs, YourActs;
    c := Recounted(n0, moves, n);
    RecountsTrue(n0, moves, c);
    var k := c.mySid;
    LatestLogs(c);
    hide True;
    if k == c.yourSid > 0 && k !in c.blurred { StreamPrefix(n0, moves, c, k); }
  }

  /** A station's logs are those of its last session. */
  lemma LatestLogs(c: Chronicle)
    requires True(c)
    ensures c.mySid > 0 ==> c.mySid in c.mine && SameLogs(c.net.me, c.mine[c.mySid])
    ensures c.yourSid > 0 ==> c.yourSid in c.yours && SameLogs(c.net.you, c.yours[c.yourSid])
    ensures c.net.me.state.CONNECTED? && c.net.me.task.Resting? ==> c.net.me.given == c.net.me.sent
  {
    assert Records(c) && Records(Flip(c)) && Ledgers(c.net);
    hide Full, Sources, Unmet, Alone, Story, Roles;
  }

  /**
   End to end, for two services whose link objects have acted as in a run, while the last session of
   both is one and the same, whether or not either end is still in it: what one service has placed for
   its application is the beginning of what the other's session carried over and was then given to
   write. Once every send has returned, it is all that was not dropped or does not wait in the queue.
   */
  lemma EndToEnd(a: ModemService, b: ModemService, n0: Net, moves: seq<Move>, n: Net) returns (c: Chronicle)
    requires a.Valid() && b.Valid() && Start(n0) && Reaches(n0, moves, n)
    requires n0.me == a.link.origin && n0.you == b.link.origin
    requires MyActs(moves) == a.link.acts && YourActs(moves) == b.link.acts
    ensures Recounts(n0, moves, c) && c.net == n && n.me == a.link.st && n.you == b.link.st
    ensures a.live && b.live && c.mySid == c.yourSid > 0 && c.mySid !in c.blurred ==>
      && Flat(b.placed) <= a.carried + a.written && b.placed == b.fetched + b.inbound
      && ((c.mySid !in c.parted || SameControl(n0))
          && (a.link.st.state == CONNECTED || a.link.st.given == a.link.st.sent) ==>
            Flat(b.placed) + a.lost + Flat(a.outbound) == a.carried + a.written)
  {
    hide *;
    Books(a);
    Books(b);
    c := LastSession(a.link, b.link, n0, moves, n);
    if a.live && b.live && c.mySid == c.yourSid > 0 && c.mySid !in c.blurred {
      var given, heard := a.link.st.given, b.link.st.heard;
      assert given == heard + given[|heard|..];
      FlatMany(heard, given[|heard|..]);
      Begins(Flat(heard), Flat(given[|heard|..]), a.lost, Flat(a.outbound), a.carried + a.written);
    }
  }

  /** What a service's accounts say of its link's logs. */
  lemma Books(s: ModemService)
    requires s.Valid()
    ensures s.link.Valid() && (s.link.st.state == CONNECTED ==> s.link.st.task.Resting?)
    ensures s.live ==>
      && s.placed == s.link.st.heard && s.placed == s.fetched + s.inbound
      && Flat(s.link.st.given) + s.lost + Flat(s.outbound) == s.carried + s.written
  {
    hide Link.Valid, Flat;
  }

  lemma Begins(a: Bytes, b: Bytes, c: Bytes, d: Bytes, all: Bytes)
    requires a + b + c + d == all
    ensures a <= all
  {
    assert a + b + c + d == a + (b + c + d);
  }

  /**
   What a session carries over from the last is sent in it: a session the peer ends while bytes wait to
   be sent, and the next call answered. Nothing is written in the second session, and `w` goes out in it.
   */
  method CarriesOver(w: Bytes, reg: Registry, first: Frame, second: Frame) returns (s: ModemService)
    requires w != [] && reg.Valid()
    requires first.Connect? && second.Connect? && first.dst == second.dst == "B"
    ensures fresh(s) && s.written == [] && s.carried == w && s.link.st.given == [w] && s.outbound == []
  {
    var link := new Link("B", reg, 3, 2, map[], [Silence, Heard(first), Heard(Disc), Silence, Heard(second)], [], []);
    FreshState(link.st);
    hide Link.Valid, Fresh;
    s := new ModemService(link);
    Leaves(s, w, first, second);
    assert [] + [w] == [w];
    NextCall(s, w, second);
  }

  lemma FreshState(s: Station)
    requires Fresh(s)
    ensures s.task.Resting? && s.state == IDLE
  {
  }

  /** A session is answered, and ended by the peer while bytes land on the queue. */
  method Leaves(s: ModemService, w: Bytes, first: Frame, second: Frame)
    requires s.Valid() && s.link.st.state != CONNECTED && s.link.call == "B" && s.outbound == [] && w != []
    requires first.Connect? && second.Connect? && first.dst == "B" && s.link.stale == []
    requires s.link.inbox == [Silence, Heard(first), Heard(Disc), Silence, Heard(second)]
    modifies s, s.link
    ensures s.Valid() && s.link.st.state == IDLE && s.outbound == [w] && s.link.inbox == [Silence, Heard(second)]
  {
    hide *;
    ScriptRuns(first, second);
    var _ := s.Answer();
    s.Receive([w]);
    assert [] + [w] == [w];
  }

  /** The next call is answered, and the first turn sends what was left. */
  method NextCall(s: ModemService, w: Bytes, second: Frame)
    requires s.Valid() && s.link.st.state != CONNECTED && s.link.call == "B" && s.outbound == [w] && w != []
    requires second.Connect? && second.dst == "B" && s.link.inbox == [Silence, Heard(second)]
    modifies s, s.link
    ensures s.written == [] && s.carried == w && s.link.st.given == [w] && s.outbound == []
  {
    hide Link.Valid, Found, Rest, Drained, DiscWaits, Flat, Answers, Serves;
    NextFound(second);
    OneFlat(w);
    var _ := s.Answer();
    var _ := s.ServiceConnected([]);
  }

  /** A call, a DISC, silence, and the next call. */
  lemma ScriptRuns(first: Frame, second: Frame)
    requires first.Connect? && second.Connect?
    ensures var script := [Silence, Heard(first), Heard(Disc), Silence, Heard(second)];
      && Found(Drained(script), {KConnect}) == Some(first)
      && Rest(Drained(script), {KConnect}) == [Heard(Disc), Silence, Heard(second)]
    ensures DiscWaits([Heard(Disc), Silence, Heard(second)], [])
    ensures [Heard(Disc), Silence, Heard(second)][1..] == [Silence, Heard(second)]
  {
    var script := [Silence, Heard(first), Heard(Disc), Silence, Heard(second)];
    EndsHere(script, {}, 0);
    assert Drained(script) == [Heard(first), Heard(Disc), Silence, Heard(second)];
    EndsHere(Drained(script), {KConnect}, 0);
  }

  lemma NextFound(second: Frame)
    requires second.Connect?
    ensures Found(Drained([Silence, Heard(second)]), {KConnect}) == Some(second)
  {
    EndsHere([Silence, Heard(second)], {}, 0);
    assert Drained([Silence, Heard(second)]) == [Heard(second)];
    EndsHere([Heard(second)], {KConnect}, 0);
  }

  lemma OneFlat(w: Bytes)
    ensures Flat([]) == [] && Flat([w]) == w && [] + [w] == [w] && Flat([]) + w == w
  {
    FlatMore([], w);
    assert [] + [w] == [w];
  }

  // -- bytes --------------------------------------------------------------------------------

  lemma Joins(a: Bytes, b: Bytes, c: Bytes, d: Bytes)
    ensures a + b + (c + d) == (a + b + c) + d
  {
  }

  lemma Appends(a: seq<Bytes>, b: seq<Bytes>, c: seq<Bytes>)
    ensures a + (b + c) == (a + b) + c
  {
  }

  lemma Drops(a: Bytes, b: Bytes, c: Bytes)
    ensures a + (b + c) + Flat([]) == a + b + c
  {
  }

  lemma NoFlat(a: Bytes, b: Bytes)
    ensures Flat([]) == [] && a + [] + b == a + b && a + b + [] == a + b
  {
  }

  lemma {:induction false} NonemptyFlat(ws: seq<Bytes>)
    requires forall w :: w in ws ==> w != []
    ensures Flat(ws) == [] <==> ws == []
  {
    if ws != [] {
      assert ws[|ws| - 1] in ws;
      assert |ws[|ws| - 1]| > 0;
    }
  }

  lemma NoneAdded(a: seq<Bytes>, b: seq<Bytes>)
    ensures a + [] == a && b + [] == b
  {
  }

  lemma CarriedSent(s: Station, t: Station, data: Bytes)
    requires Carried(s, t, data)
    ensures t.sent == s.sent + [data]
  {
  }

  lemma AcceptsFor(s: Station)
    requires Opened(s)
    ensures s.pending == [] && s.given == []
  {
  }
}
