/**
 The Link object as the source runs it: one worker thread, blocking calls with retry loops,
 fields updated in place. Every method is proved to do nothing but a list of the station
 acts of LinkStation, and to end the session after a failed call; `ObjectsRun` makes the theorems
 about runs of those acts theorems about two such objects.

 Time is the script the methods run against: `inbox` says what each wait on the packet queue
 yields, `stale` what the inactivity clock says, `hunches` which way the delivery statistics
 lean after each acknowledged chunk.
 */
module LinkObject {
  import opened Common
  import opened LinkStation
  import opened LinkNet
  import opened LinkMessages
  import opened LinkRuns
  import opened LinkActs
  import opened LinkScript

  class Link {
    const call: string
    const reg: Registry
    const maxRetries: nat
    const stepDownAfter: nat

    var state: LinkState
    var role: Role
    var peer: Option<string>
    var peerModes: set<nat>
    var tx: Mode
    var rx: Mode
    var txSeq: nat
    var rxExpect: nat
    var partial: Option<Bytes>
    var pending: seq<Bytes>
    var sid: nat
    var ackBody: Option<Frame>
    var lastGood: map<string, nat>
    var failures: nat

    var inbox: seq<Arrival>
    var stale: seq<bool>
    var hunches: seq<int>
    var air: seq<Frame>
    /** Messages handed up the moment they were complete, not yet taken over. */
    var raised: seq<Bytes>

    ghost var st: Station
    ghost var origin: Station
    ghost var acts: seq<Act>

    /** The fields are the station's, the remembered modes apart. */
    ghost predicate TiesButMemory()
      reads this`st, this`state, this`role, this`peer, this`peerModes, this`tx, this`rx, this`txSeq, this`rxExpect
      reads this`partial, this`pending, this`sid, this`ackBody
    {
      && st.call == call && st.reg == reg && st.state == state && st.role == role
      && st.peer == peer && st.peerModes == peerModes && st.tx == tx && st.rx == rx
      && st.txSeq == txSeq && st.rxExpect == rxExpect && st.partial == partial && st.pending == pending
      && st.sid == sid && st.ackBody == ackBody
    }

    ghost predicate Ties()
      reads this`st, this`state, this`role, this`peer, this`peerModes, this`tx, this`rx, this`txSeq, this`rxExpect
      reads this`partial, this`pending, this`sid, this`ackBody, this`lastGood
    {
      TiesButMemory() && st.lastGood == lastGood
    }

    /** The object is where its acts have brought it. */
    ghost predicate Valid()
      reads this`st, this`state, this`role, this`peer, this`peerModes, this`tx, this`rx, this`txSeq, this`rxExpect
      reads this`partial, this`pending, this`sid, this`ackBody, this`lastGood, this`air, this`origin, this`acts
    {
      Ties() && Sound()
    }

    ghost predicate Sound()
      reads this`st, this`state, this`tx, this`ackBody, this`air, this`origin, this`acts
    {
      && Perform(origin, acts) == Some(Log(st, air)) && Resume !in acts
      && reg.Valid() && tx in reg.modes
      && (ackBody.Some? ==> ackBody.value.ConnectAck?)
      && (st.task.Calling? ==> state.CONNECTING?)
    }

    /** The acknowledgement in hand has been recorded as evidence for its mode, and nothing more. */
    ghost predicate Confirmed(ack: Frame)
      reads this`st, this`state, this`role, this`peer, this`peerModes, this`tx, this`rx, this`txSeq, this`rxExpect
      reads this`partial, this`pending, this`sid, this`ackBody, this`lastGood, this`air, this`origin, this`acts
    {
      && TiesButMemory() && Sound()
      && st.task.Sending? && st.hand.Some? && state == CONNECTED
      && Confirms(st, ack) && lastGood == RememberMode(st)
    }

    constructor (call: string, reg: Registry, maxRetries: nat, stepDownAfter: nat, lastGood: map<string, nat>,
                 inbox: seq<Arrival>, stale: seq<bool>, hunches: seq<int>)
      requires reg.Valid()
      ensures Valid() && Fresh(st) && acts == [] && air == [] && raised == [] && origin == st
      ensures this.call == call && this.reg == reg && this.inbox == inbox && this.stale == stale
    {
      this.call, this.reg, this.maxRetries, this.stepDownAfter := call, reg, maxRetries, stepDownAfter;
      this.lastGood, this.inbox, this.stale, this.hunches := lastGood, inbox, stale, hunches;
      state, role, peer, peerModes := IDLE, NoRole, None, {};
      tx, rx, txSeq, rxExpect := reg.control, reg.control, 0, 0;
      partial, pending, sid, ackBody, failures, air, raised := None, [], 0, None, 0, [], [];
      st := AtPowerUp(call, reg, lastGood);
      origin, acts := st, [];
    }

    /** Records an act the code has just carried out. */
    ghost method Note(a: Act, keyed: seq<Frame>)
      requires Perform(origin, acts) == Some(Log(st, keyed))
      requires Can(st, a) && air == keyed + Emitted(Do(st, a).out) && !a.Resume? && Resume !in acts
      modifies this`acts, this`st
      ensures Perform(origin, acts) == Some(Log(st, air)) && Resume !in acts
      ensures st == Do(old(st), a).st && acts == old(acts) + [a] && Added(old(acts), acts, HeardOf(a))
    {
      AddedOne(acts, a);
      PerformMore(origin, acts, Log(st, keyed), a);
      st, acts := Do(st, a).st, acts + [a];
    }

    method TxPacket(f: Frame)
      modifies this`air
      ensures air == old(air) + [f]
    {
      air := air + [f];
    }

    method AnswerDuplicateConnect(f: Frame) returns (did: bool)
      requires f.Connect? && Ties()
      modifies this`air
      ensures did <==> IsDuplicateConnect(st, f)
      ensures air == old(air) + if did then [ackBody.value] else []
    {
      if !(state == LISTENING || state == CONNECTED) || ackBody == None {
        return false;
      }
      if f.dst != call || Some(f.src) != peer {
        return false;
      }
      if f.sid != sid {
        return false;
      }
      TxPacket(ackBody.value);
      return true;
    }

    /** A packet the current wait does not want: dropped, unless it is a retried CONNECT. */
    method Drop(f: Frame)
      requires Valid() && Hearing(st) && KindOf(f) !in Wants(st.task)
      modifies this`air, this`acts, this`st
      ensures Valid() && Added(old(acts), acts, [f]) && old(acts) <= acts && st == old(st)
      ensures DataKeyed(air) == DataKeyed(old(air))
      ensures air == old(air) + if IsDuplicateConnect(st, f) then [st.ackBody.value] else []
    {
      hide Perform, Do, React, Can, KindOf, Wants, Added;
      ghost var keyed := air;
      Unwanted(st, f);
      if f.Connect? {
        var did := AnswerDuplicateConnect(f);
        if did { KeyedMore(keyed, ackBody.value); }
      }
      assert keyed + [] == keyed;
      Note(Hear(f), keyed);
    }

    /** Takes packets up to the first wanted one, or to silence, dropping or re-answering those before. */
    method WaitPacket(want: set<Kind>) returns (got: Option<Frame>)
      requires Valid() && Hearing(st) && want == Wants(st.task)
      modifies this`inbox, this`air, this`acts, this`st
      ensures Valid() && st == old(st)
      ensures DataKeyed(air) == DataKeyed(old(air)) && OnlyReanswered(old(air), air)
      ensures got.Some? ==> KindOf(got.value) in want
      ensures got == Found(old(inbox), want) && inbox == Rest(old(inbox), want)
      ensures air == old(air) + Reanswers(st, old(inbox)[..EndsAt(old(inbox), want)])
      ensures Took(old(acts), Owing(acts, got), old(inbox), inbox) && old(acts) <= acts
    {
      hide Perform, Do, React, Can, Ties, Hearing, KindOf, Wants, DataKeyed, IsDuplicateConnect, Sound, EndsAt, Added;
      hide FramesOf, Took;
      ghost var n := 0;
      assert old(inbox)[..0] == [] && old(air) + [] == old(air);
      NothingTaken(acts, inbox);
      while inbox != []
        invariant Valid() && st == old(st) && n <= |old(inbox)| && inbox == old(inbox)[n..] && old(acts) <= acts
        invariant Added(old(acts), acts, FramesOf(old(inbox)[..n]))
        invariant DataKeyed(air) == DataKeyed(old(air)) && air == old(air) + Reanswers(st, old(inbox)[..n])
        invariant forall k :: 0 <= k < n ==> old(inbox)[k].Heard? && KindOf(old(inbox)[k].frame) !in want
        decreases |inbox|
      {
        var head := inbox[0];
        assert head == old(inbox)[n];
        TakesOne(old(acts), acts, old(inbox), n);
        inbox := inbox[1..];
        if head == Silence {
          EndsHere(old(inbox), want, n);
          ReansweredOnly(old(air), old(inbox)[..n]);
          return None;
        }
        if KindOf(head.frame) in want {
          EndsHere(old(inbox), want, n);
          ReansweredOnly(old(air), old(inbox)[..n]);
          return Some(head.frame);
        }
        Passes(st, old(inbox), n);
        ghost var was := acts;
        Drop(head.frame);
        HeardNext(old(acts), was, acts, old(inbox), n);
        n := n + 1;
      }
      EndsHere(old(inbox), want, n);
      ReansweredOnly(old(air), old(inbox)[..n]);
      TookAll(old(acts), acts, old(inbox), n);
      return None;
    }

    lemma ReansweredOnly(before: seq<Frame>, passed: seq<Arrival>)
      requires Valid()
      ensures OnlyReanswered(before, before + Reanswers(st, passed))
    {
      forall kinds: set<Kind> | KConnectAck !in kinds
        ensures Only(before + Reanswers(st, passed), kinds) == Only(before, kinds)
      {
        OnlyReanswers(st, passed, kinds);
        OnlyJoin(before, Reanswers(st, passed), kinds);
      }
    }

    // -- the inactivity clock and teardown ----------------------------------------

    /** A script that has run out is a peer that has fallen silent. */
    method PeerIsStale() returns (yes: bool)
      modifies this`stale
      ensures stale == Later(old(stale)) && (yes <==> state == CONNECTED && Expired(inbox, old(stale)))
    {
      if stale == [] {
        return state == CONNECTED && inbox == [];
      }
      yes := state == CONNECTED && stale[0];
      stale := stale[1..];
    }

    method ForgetSession()
      modifies this`sid, this`ackBody
      ensures sid == 0 && ackBody == None
    {
      sid := 0;
      ackBody := None;
    }

    method HandlePeerDisc()
      modifies this`air, this`state, this`peer, this`sid, this`ackBody
      ensures air == old(air) + [DiscAck] && state == IDLE && peer == None && sid == 0 && ackBody == None
    {
      TxPacket(DiscAck);
      state := IDLE;
      peer := None;
      ForgetSession();
    }

    /** Keys DISC until it is answered or the retries are spent. */
    method KeyDiscs(retries: nat) returns (got: Option<Frame>)
      requires Valid() && st.task.Leaving?
      modifies this`inbox, this`air, this`acts, this`st
      ensures Valid() && st == old(st) && Took(old(acts), Owing(acts, got), old(inbox), inbox) && old(acts) <= acts
      ensures got.Some? ==> got.value.Disc? || got.value.DiscAck?
      ensures DataKeyed(air) == DataKeyed(old(air))
      ensures var run := PartRun(old(inbox), retries);
        && (got.Some? <==> run.acknowledged) && inbox == run.rest && DiscKeyed(air) == DiscKeyed(old(air)) + run.keyed
        && Only(air, ANSWERS) == Only(old(air), ANSWERS) && AskKeyed(air) == AskKeyed(old(air))
    {
      hide *;
      var attempt := 1;
      ghost var count := 0;
      got := None;
      AddedNone(acts);
      TookNone(acts, acts, inbox);
      OwingNone(acts);
      PartStarts(inbox, retries);
      while attempt <= retries && got == None
        invariant Valid() && st == old(st) && Took(old(acts), Owing(acts, got), old(inbox), inbox) && old(acts) <= acts
        invariant DataKeyed(air) == DataKeyed(old(air)) && Only(air, ANSWERS) == Only(old(air), ANSWERS)
        invariant AskKeyed(air) == AskKeyed(old(air))
        invariant got.Some? ==> got.value.Disc? || got.value.DiscAck?
        invariant 1 <= attempt <= retries + 1
        invariant PartRun(old(inbox), retries)
               == Parted(got.Some?, inbox, retries - (attempt - 1), count)
        invariant DiscKeyed(air) == DiscKeyed(old(air)) + count
        decreases retries - attempt, if got == None then 1 else 0
      {
        ghost var was, keyed, before := acts, air, inbox;
        OwingNone(acts);
        KeyOneDisc();
        KeyedMore(keyed, Disc);
        DiscMore(keyed);
        Grown(was, acts, []);
        LeavingWaits(st);
        ghost var mid, sent := acts, air;
        got := WaitPacket(PARTING);
        if got != None { LeavingHears(got.value); }
        Reanswered(sent, air);
        PartsOnce(before, retries - (attempt - 1), count);
        count := count + 1;
        TookNone(was, mid, before);
        TookOn(was, mid, Owing(acts, got), before, before, inbox);
        TookOn(old(acts), was, Owing(acts, got), old(inbox), before, inbox);
        attempt := attempt + 1;
      }
      PartEnds(inbox, retries - (attempt - 1), count);
    }

    method KeyOneDisc()
      requires Valid() && st.task.Leaving?
      modifies this`air, this`acts, this`st
      ensures Valid() && Added(old(acts), acts, []) && st == old(st) && air == old(air) + [Disc]
    {
      hide Perform, Do, React, Can, Added;
      TeardownActs(st);
      ghost var keyed := air;
      TxPacket(Disc);
      Note(KeyDisc, keyed);
    }

    method EndSession(got: Option<Frame>)
      requires Valid() && st.task.Leaving? && (got.Some? ==> got.value.Disc? || got.value.DiscAck?)
      modifies this`state, this`peer, this`sid, this`ackBody, this`acts, this`st
      ensures Valid() && st == Gone(old(st))
      ensures Added(old(acts), acts, if got.Some? then [got.value] else [])
    {
      hide Perform, Do, React, Can, Added;
      TeardownActs(st);
      state := IDLE;
      peer := None;
      ForgetSession();
      assert air + [] == air;
      Note(if got.Some? then Hear(got.value) else Left, air);
    }

    /** An act that keys nothing and changes only what the worker is waiting for. */
    ghost method Turn(a: Act)
      requires Valid() && Can(st, a) && Do(st, a).out.None? && !a.Resume?
      requires var t := Do(st, a).st; t == st.(task := t.task, hand := t.hand, given := t.given, sent := t.sent)
      requires Do(st, a).st.task.Calling? ==> state.CONNECTING?
      modifies this`acts, this`st
      ensures Valid() && st == Do(old(st), a).st && acts == old(acts) + [a] && Added(old(acts), acts, HeardOf(a))
    {
      hide Do, React, Can;
      assert air + [] == air;
      Note(a, air);
    }

    method HangUp()
      requires Valid() && st.task.Resting? && state != CONNECTED
      modifies this`state, this`acts, this`st
      ensures Valid() && Added(old(acts), acts, []) && st == old(st).(state := IDLE)
    {
      hide Perform, Do, React, Can;
      TeardownActs(st);
      state := IDLE;
      assert air + [] == air;
      Note(Hang, air);
    }

    method Disconnect(retries: nat) returns (acknowledged: bool)
      requires Valid()
      requires st.task.Resting? || (state == CONNECTED && (st.task.Receiving? || st.task.Asking? || st.task.Failed?))
      modifies this`state, this`peer, this`sid, this`ackBody, this`inbox, this`air, this`acts, this`st
      ensures Valid() && Took(old(acts), acts, old(inbox), inbox)
      ensures old(state) == CONNECTED ==> st == Gone(old(st))
      ensures old(state) != CONNECTED ==> acknowledged && air == old(air) && st == old(st).(state := IDLE)
      ensures old(state) != CONNECTED ==> inbox == old(inbox)
      ensures DataKeyed(air) == DataKeyed(old(air)) && Only(air, ANSWERS) == Only(old(air), ANSWERS)
      ensures AskKeyed(air) == AskKeyed(old(air))
      ensures old(state) == CONNECTED ==>
        var run := PartRun(old(inbox), retries);
        acknowledged == run.acknowledged && inbox == run.rest && DiscKeyed(air) == DiscKeyed(old(air)) + run.keyed
    {
      hide *;
      Fields();
      if state != CONNECTED {
        HangUp();
        TookNone(old(acts), acts, inbox);
        return true;
      }
      BeginLeaving();
      ghost var left := acts;
      TookNone(old(acts), left, inbox);
      var got := KeyDiscs(retries);
      acknowledged := got != None;
      ghost var was := acts;
      EndSession(got);
      Owed(was, acts, got);
      TookOwed(left, was, acts, old(inbox), inbox, got);
      TookOn(old(acts), left, acts, old(inbox), old(inbox), inbox);
    }

    ghost method BeginLeaving()
      requires Valid() && st.state == CONNECTED
      requires st.task.Resting? || st.task.Receiving? || st.task.Asking? || st.task.Failed?
      modifies this`acts, this`st
      ensures Valid() && Added(old(acts), acts, []) && st.task.Leaving? && Gone(st) == Gone(old(st))
    {
      hide Valid, Ties, Perform, Do, React, Can, Gone, Added;
      TeardownActs(st);
      NotHearing(Leave);
      Turn(Leave);
    }

    method AbandonIfStale() returns (gone: bool)
      requires Valid() && st.state == CONNECTED && (st.task.Receiving? || st.task.Asking?)
      modifies this`state, this`peer, this`sid, this`ackBody, this`inbox, this`stale, this`air, this`acts, this`st
      ensures Valid() && Took(old(acts), acts, old(inbox), inbox)
      ensures DataKeyed(air) == DataKeyed(old(air)) && Only(air, ANSWERS) == Only(old(air), ANSWERS)
      ensures AskKeyed(air) == AskKeyed(old(air))
      ensures st == (if gone then Gone(old(st)) else old(st)) && (!gone ==> air == old(air))
      ensures inbox == if gone then PartRun(old(inbox), 1).rest else old(inbox)
      ensures gone ==> DiscKeyed(air) == DiscKeyed(old(air)) + PartRun(old(inbox), 1).keyed
      ensures gone <==> Expired(old(inbox), old(stale))
      ensures stale == Later(old(stale))
    {
      Fields();
      GoneFields(st);
      AddedNone(acts);
      TookNone(acts, acts, inbox);
      hide *;
      gone := PeerIsStale();
      if gone {
        var _ := Disconnect(1);
      }
    }

    // -- receiving -----------------------------------------------------------------

    method HandleFloorReq()
      modifies this`role, this`air
      ensures role == IRS && air == old(air) + [FloorGrant]
    {
      role := IRS;
      TxPacket(FloorGrant);
    }

    method HandleData(f: Frame) returns (message: Option<Bytes>)
      requires f.Data? && Ties()
      modifies this`rx, this`partial, this`rxExpect, this`air, this`raised
      ensures var d := LinkStation.HandleData(st, f);
        rx == d.st.rx && partial == d.st.partial && rxExpect == d.st.rxExpect && air == old(air) + Emitted(d.out)
      ensures message == Completed(st, f)
      ensures raised == old(raised) + if message.Some? then [message.value] else []
    {
      rx := reg.Resolve(f.mode);
      message := None;
      if partial == None {
        partial := Some([]);
      }
      if f.seqNo == rxExpect {
        partial := Some(partial.value + f.chunk);
        rxExpect := (f.seqNo + 1) % SEQ_MODULO;
        if f.eof {
          message := partial;
          partial := Some([]);
          raised := raised + [message.value];
        }
      }
      TxPacket(DataAck(f.seqNo, rxExpect, rx.id));
    }

    /** The fields, read off the station. */
    lemma Fields()
      requires Valid()
      ensures call == st.call && reg == st.reg && state == st.state && role == st.role && tx == st.tx && rx == st.rx
      ensures partial == st.partial && pending == st.pending && peerModes == st.peerModes && txSeq == st.txSeq
      ensures reg.Valid() && tx in reg.modes
    {
    }

    method TakePending() returns (m: Bytes)
      requires Valid() && st.task.Resting? && state == CONNECTED && pending != []
      modifies this`pending, this`acts, this`st
      ensures Valid() && Added(old(acts), acts, [])
      ensures m == old(st.pending)[0] && st == old(st).(pending := old(st.pending)[1..])
    {
      hide Perform, Do, React, Can, Added;
      ReceiveActs(st);
      m := pending[0];
      pending := pending[1..];
      assert air + [] == air;
      Note(PopPending, air);
    }

    method StartReceiving()
      requires Valid() && st.task.Resting? && state == CONNECTED && pending == []
      modifies this`partial, this`acts, this`st
      ensures Valid() && Added(old(acts), acts, []) && st == InRecv(old(st))
      ensures st.task.Receiving? && st.state == old(st.state) && st.pending == old(st.pending)
      ensures st.heard == old(st.heard) && st.given == old(st.given)
    {
      hide Perform, Do, React, Can, Added;
      ReceiveActs(st);
      if partial == None {
        partial := Some([]);
      }
      assert air + [] == air;
      Note(StartRecv, air);
    }

    method TakeFloorReq()
      requires Valid() && st.task.Receiving? && state == CONNECTED
      modifies this`role, this`air, this`acts, this`st
      ensures Valid() && Added(old(acts), acts, [FloorReq]) && st == old(st).(role := IRS)
      ensures air == old(air) + [FloorGrant]
    {
      hide Perform, Do, React, Can, Added;
      ReceivingHears(st, FloorReq);
      ghost var keyed := air;
      HandleFloorReq();
      Note(Hear(FloorReq), keyed);
    }

    method TakeDisc()
      requires Valid() && (st.task.Receiving? || st.task.Asking? || (st.task.Sending? && st.hand.Some?))
      modifies this`state, this`peer, this`sid, this`ackBody, this`air, this`acts, this`st
      ensures Valid() && Added(old(acts), acts, [Frame.Disc]) && st == Gone(old(st)) && air == old(air) + [DiscAck]
    {
      hide Perform, Do, React, Can, Added;
      DiscHeard(st);
      ghost var keyed := air;
      HandlePeerDisc();
      Note(Hear(Disc), keyed);
    }

    method TakeData(f: Frame) returns (message: Option<Bytes>)
      requires Valid() && st.task.Receiving? && state == CONNECTED && f.Data?
      modifies this`rx, this`partial, this`rxExpect, this`air, this`raised, this`acts, this`st
      ensures raised == old(raised) + if message.Some? then [message.value] else []
      ensures Valid() && Added(old(acts), acts, [f]) && message == Completed(old(st), f)
      ensures var d := LinkStation.HandleData(old(st), f);
        st == (if message.Some? then d.st.(task := Resting) else d.st) && air == old(air) + [d.out.value]
    {
      hide Perform, Do, React, Can, LinkStation.HandleData, Completed, Added;
      ReceivingHears(st, f);
      DataFields(st, f);
      ghost var keyed := air;
      message := HandleData(f);
      Note(Hear(f), keyed);
    }

    method RecvMessage() returns (r: Received)
      requires Valid() && st.task.Resting?
      modifies this`state, this`role, this`peer, this`rx, this`rxExpect, this`partial, this`pending, this`sid,
          this`ackBody
      modifies this`inbox, this`stale, this`air, this`raised, this`acts, this`st
      ensures Valid() && Took(old(acts), acts, old(inbox), inbox) && st.task.Resting? && st.given == old(st.given)
      ensures raised == old(raised) + if r.Message? && old(st.pending) == [] then [r.bytes] else []
      ensures old(st.state) != CONNECTED <==> r == NoLink
      ensures r == NoLink ==> st == old(st) && air == old(air) && inbox == old(inbox) && stale == old(stale)
      ensures old(st.state) == CONNECTED && old(st.pending) != [] ==>
        && r == Message(old(st.pending)[0]) && st == old(st).(pending := old(st.pending)[1..])
        && air == old(air) && inbox == old(inbox) && stale == old(stale)
      ensures r.Message? && old(st.pending) == [] ==>
        st.state == CONNECTED && st.pending == [] && st.heard == old(st.heard) + [r.bytes]
      ensures r == Nothing ==> st.heard == old(st.heard) && old(st.pending) == [] && st.pending == []
      ensures old(st.state) == CONNECTED && old(st.pending) == [] && DiscWaits(old(inbox), old(stale)) ==>
        r == Nothing && st.state == IDLE && inbox == old(inbox)[1..]
      ensures old(st.state) == CONNECTED && old(st.pending) == [] ==>
        var run := ReceiveRun(InRecv(old(st)), old(inbox), old(stale));
        && r == run.r && st == run.st && inbox == run.rest && stale == run.stale
        && Only(air, ANSWERS) == Only(old(air), ANSWERS) + run.answers
    {
      Fields();
      AddedNone(acts);
      TookNone(acts, acts, inbox);
      if state != CONNECTED {
        return NoLink;
      }
      hide *;
      if pending != [] {
        var m := TakePending();
        TookNone(old(acts), acts, inbox);
        return Message(m);
      }
      StartReceiving();
      ghost var was := acts;
      r := Receive();
      TookNone(old(acts), was, old(inbox));
      TookOn(old(acts), was, acts, old(inbox), old(inbox), inbox);
    }

    /** The waiting part of recv_message. */
    method Receive() returns (r: Received)
      requires Valid() && st.task.Receiving? && st.state == CONNECTED && st.pending == []
      modifies this`state, this`role, this`peer, this`rx, this`rxExpect, this`partial, this`sid, this`ackBody
      modifies this`inbox, this`stale, this`air, this`raised, this`acts, this`st
      ensures Valid() && Took(old(acts), acts, old(inbox), inbox)
      ensures st.task.Resting? && st.pending == [] && st.given == old(st.given)
      ensures raised == old(raised) + if r.Message? then [r.bytes] else []
      ensures r.Message? ==> st.state == CONNECTED && st.heard == old(st.heard) + [r.bytes]
      ensures !r.Message? ==> r == Nothing && st.heard == old(st.heard)
      ensures DiscWaits(old(inbox), old(stale)) ==> r == Nothing && st.state == IDLE && inbox == old(inbox)[1..]
      ensures var run := ReceiveRun(old(st), old(inbox), old(stale));
        && r == run.r && st == run.st && inbox == run.rest && stale == run.stale
        && Only(air, ANSWERS) == Only(old(air), ANSWERS) + run.answers
    {
      hide *;
      ghost var first := true;
      ghost var said: seq<Frame> := [];
      AddedNone(acts);
      TookNone(acts, acts, inbox);
      ReceiveStarts(st, inbox, stale);
      ReceiveEnds(Nothing, st, inbox, stale, said);
      while true
        invariant Valid() && Took(old(acts), acts, old(inbox), inbox) && st.task.Receiving? && st.state == CONNECTED
        invariant st.pending == [] && st.heard == old(st.heard) && st.given == old(st.given) && raised == old(raised)
        invariant if first then inbox == old(inbox) && stale == old(stale) else !DiscWaits(old(inbox), old(stale))
        invariant Only(air, ANSWERS) == Only(old(air), ANSWERS) + said
        invariant ReceiveRun(old(st), old(inbox), old(stale)) == ReceiveOn(false, Nothing, st, inbox, stale, said)
        decreases |inbox|
      {
        first := false;
        var done;
        ghost var more, was, before, from, clock := [], acts, inbox, st, stale;
        done, r, more := ReceiveOnce();
        TookOn(old(acts), was, acts, old(inbox), before, inbox);
        ReceiveGoesOn(from, before, clock, said, done, r, st, inbox, stale, more);
        said := said + more;
        if done {
          ReceiveEnds(r, st, inbox, stale, said);
          return;
        }
      }
    }

    /** One packet, or silence; `done` when recv_message has its answer. */
    method ReceiveOnce() returns (done: bool, r: Received, ghost said: seq<Frame>)
      requires Valid() && st.task.Receiving? && st.state == CONNECTED && st.pending == []
      modifies this`state, this`role, this`peer, this`rx, this`rxExpect, this`partial, this`sid, this`ackBody
      modifies this`inbox, this`stale, this`air, this`raised, this`acts, this`st
      ensures Valid() && Took(old(acts), acts, old(inbox), inbox) && st.pending == [] && st.given == old(st.given)
      ensures raised == old(raised) + if r.Message? then [r.bytes] else []
      ensures if done then st.task.Resting? else r == Nothing && st.task.Receiving? && st.state == CONNECTED
      ensures !done ==> |inbox| < |old(inbox)|
      ensures r.Message? ==> st.state == CONNECTED && st.heard == old(st.heard) + [r.bytes]
      ensures !r.Message? ==> r == Nothing && st.heard == old(st.heard)
      ensures DiscWaits(old(inbox), old(stale)) ==> done && r == Nothing && st.state == IDLE && inbox == old(inbox)[1..]
      ensures ReceiveRun(old(st), old(inbox), old(stale)) == ReceiveOn(done, r, st, inbox, stale, said)
      ensures Only(air, ANSWERS) == Only(old(air), ANSWERS) + said
    {
      hide *;
      DiscInTime(inbox, stale);
      said := [];
      ReceivesOne(st, inbox, stale);
      GoneFields(st);
      WaitShrinks(inbox, RECEIVES);
      var gone := AbandonIfStale();
      if gone {
        return true, Nothing, [];
      }
      Fields();
      Waits(st);
      ghost var was, keyed, before := acts, air, inbox;
      var got := WaitPacket(RECEIVES);
      Reanswered(keyed, air);
      if got == None {
        ReceivingHears(st, DiscAck);
        OwingNone(acts);
        ghost var mid := acts;
        NotHearing(StopRecv);
        Turn(StopRecv);
        TookNone(mid, acts, inbox);
        TookOn(was, mid, acts, before, inbox, inbox);
        TookOn(old(acts), was, acts, old(inbox), before, inbox);
        return true, Nothing, [];
      }
      ghost var mid, sent := acts, air;
      done, r, said := TakeReceived(got.value);
      Owed(mid, acts, got);
      TookOwed(was, mid, acts, before, inbox, got);
      TookOn(old(acts), was, acts, old(inbox), before, inbox);
    }

    method TakeReceived(f: Frame) returns (done: bool, r: Received, ghost said: seq<Frame>)
      requires Valid() && st.task.Receiving? && st.state == CONNECTED && st.pending == []
      requires KindOf(f) in RECEIVES
      modifies this`state, this`role, this`peer, this`rx, this`rxExpect, this`partial, this`sid, this`ackBody
      modifies this`air, this`raised, this`acts, this`st
      ensures Valid() && Added(old(acts), acts, [f]) && st.pending == [] && st.given == old(st.given)
      ensures raised == old(raised) + if r.Message? then [r.bytes] else []
      ensures if done then st.task.Resting? else r == Nothing && st.task.Receiving? && st.state == CONNECTED
      ensures r.Message? ==> st.state == CONNECTED && st.heard == old(st.heard) + [r.bytes]
      ensures !r.Message? ==> r == Nothing && st.heard == old(st.heard)
      ensures f.Disc? ==> done && r == Nothing && st == Gone(old(st)) && st.state == IDLE && said == []
      ensures f.FloorReq? ==> !done && st == old(st).(role := IRS) && said == [FloorGrant]
      ensures f.Data? ==> WithData(old(st), f, inbox, stale) == ReceiveOn(done, r, st, inbox, stale, said)
      ensures f.Disc? || f.FloorReq? || f.Data?
      ensures Only(air, ANSWERS) == Only(old(air), ANSWERS) + said
    {
      hide *;
      Fields();
      GoneFields(st);
      Kinds(f);
      OneOf(f);
      ghost var keyed := air;
      if f.FloorReq? {
        TakeFloorReq();
        AnswersMore(keyed, FloorGrant);
        return false, Nothing, [FloorGrant];
      }
      if f.Disc? {
        TakeDisc();
        AnswersMore(keyed, DiscAck);
        return true, Nothing, [];
      }
      ReceivingHears(st, f);
      DataTaken(st, f, inbox, stale);
      said := [LinkStation.HandleData(st, f).out.value];
      var message := TakeData(f);
      AnswersMore(keyed, said[0]);
      if message != None {
        return true, Message(message.value), said;
      }
      return false, Nothing, said;
    }

    // -- the floor -------------------------------------------------------------------

    method KeyFloorReq()
      requires Valid() && st.task.Asking? && state == CONNECTED && (partial == None || partial.value == [])
      modifies this`air, this`acts, this`st
      ensures Valid() && Added(old(acts), acts, []) && st == old(st) && air == old(air) + [FloorReq]
    {
      hide Perform, Do, React, Can, Added;
      AskingActs(st, Disc);
      ghost var keyed := air;
      TxPacket(FloorReq);
      Note(Ask, keyed);
    }

    method TakeDataForFloor(f: Frame)
      requires Valid() && st.task.Asking? && state == CONNECTED && f.Data?
      modifies this`rx, this`partial, this`rxExpect, this`pending, this`air, this`raised, this`acts, this`st
      ensures Valid() && Added(old(acts), acts, [f]) && st == TookForFloor(old(st), f)
      ensures raised == old(raised) + if Completed(old(st), f).Some? then [Completed(old(st), f).value] else []
      ensures air == old(air) + [LinkStation.HandleData(old(st), f).out.value]
    {
      hide Perform, Do, React, Can, LinkStation.HandleData, Completed, TookForFloor, Registry.Valid, Added;
      AskingActs(st, f);
      DataFields(st, f);
      TookFields(st, f);
      ghost var keyed := air;
      var message := HandleData(f);
      if message != None {
        pending := pending + [message.value];
      }
      Note(Hear(f), keyed);
    }

    method TakeGrant()
      requires Valid() && st.task.Asking? && state == CONNECTED
      modifies this`role, this`acts, this`st
      ensures Valid() && Added(old(acts), acts, [FloorGrant]) && st == BeginSending(old(st), old(st).task.message)
    {
      hide Perform, Do, React, Can, Added;
      AskingActs(st, FloorGrant);
      role := ISS;
      assert air + [] == air;
      Note(Hear(FloorGrant), air);
    }

    method TakePeerDataForFloor() returns (reply: FloorReply, ghost said: seq<Frame>)
      requires Valid() && st.task.Asking? && st.state == CONNECTED
      modifies this`state, this`role, this`peer, this`rx, this`rxExpect, this`partial, this`pending, this`sid,
          this`ackBody
      modifies this`inbox, this`air, this`raised, this`acts, this`st
      ensures Valid() && Took(old(acts), acts, old(inbox), inbox)
      ensures reply.Granted? ==> AskedFor(old(st), st) && st.role == ISS
      ensures reply.TookData? || reply.Quiet? ==> SameRequest(old(st), st)
      ensures reply.PeerLeft? ==> st.state == IDLE && st.task.Resting? && st.acked == old(st.acked)
      ensures DataKeyed(air) == DataKeyed(old(air)) && AskKeyed(air) == AskKeyed(old(air))
      ensures HandsUp(old(st), old(raised), st, raised)
      ensures Turned(old(st), Found(old(inbox), FLOORS), reply, st, said) && inbox == Rest(old(inbox), FLOORS)
      ensures Only(air, ANSWERS) == Only(old(air), ANSWERS) + said
    {
      hide *;
      Fields();
      Waits(st);
      SameItself(st);
      HandsUpNothing(st, raised, st);
      TurnedIs(st, Found(inbox, FLOORS));
      said := [];
      ghost var keyed := air;
      var got := WaitPacket(FLOORS);
      Reanswered(keyed, air);
      OwingNone(acts);
      if got == None {
        return Quiet, [];
      }
      var f := got.value;
      Kinds(f);
      OneOf(f);
      RequestStands(st, st, f);
      ghost var mid, before := acts, air;
      if f.Disc? {
        GoneFields(st);
        TakeDisc();
        HandsUpNothing(old(st), raised, st);
        KeyedMore(before, DiscAck);
        AnswersMore(before, DiscAck);
        NoAsk(before, DiscAck);
        reply := PeerLeft;
      } else if f.Data? {
        TookHandsUp(st, raised, f);
        TookFields(st, f);
        said := [LinkStation.HandleData(st, f).out.value];
        KeyedMore(before, said[0]);
        AnswersMore(before, said[0]);
        NoAsk(before, said[0]);
        TakeDataForFloor(f);
        reply := TookData;
      } else {
        BeginsHeard(st, st.task.message);
        TakeGrant();
        HandsUpNothing(old(st), raised, st);
        reply := Granted;
      }
      Owed(mid, acts, got);
      TookOwed(old(acts), mid, acts, old(inbox), inbox, got);
    }

    method AskOnce() returns (reply: FloorReply, ghost said: seq<Frame>)
      requires Valid() && st.task.Asking? && st.state == CONNECTED && (partial == None || partial.value == [])
      modifies this`state, this`role, this`peer, this`rx, this`rxExpect, this`partial, this`pending, this`sid,
          this`ackBody
      modifies this`inbox, this`air, this`raised, this`acts, this`st
      ensures Valid() && Took(old(acts), acts, old(inbox), inbox)
      ensures reply.Granted? ==> AskedFor(old(st), st) && st.role == ISS
      ensures reply.TookData? || reply.Quiet? ==> SameRequest(old(st), st)
      ensures reply.PeerLeft? ==> st.state == IDLE && st.task.Resting? && st.acked == old(st.acked)
      ensures DataKeyed(air) == DataKeyed(old(air)) && AskKeyed(air) == AskKeyed(old(air)) + 1
      ensures HandsUp(old(st), old(raised), st, raised)
      ensures Turned(old(st), Found(old(inbox), FLOORS), reply, st, said) && inbox == Rest(old(inbox), FLOORS)
      ensures Only(air, ANSWERS) == Only(old(air), ANSWERS) + said
    {
      hide *;
      Fields();
      ghost var before := air;
      KeyFloorReq();
      ghost var mid := acts;
      KeyedMore(before, FloorReq);
      AskMore(before);
      TookNone(old(acts), acts, inbox);
      reply, said := TakePeerDataForFloor();
      TookOn(old(acts), mid, acts, old(inbox), old(inbox), inbox);
    }

    /** One turn of asking: halfway through a message only what comes is taken, and the count of requests stands. */
    method FloorTurn(attempt: nat, retries: nat) returns (reply: FloorReply, next: nat, ghost asked: nat,
        ghost said: seq<Frame>)
      requires Valid() && st.task.Asking? && st.state == CONNECTED && attempt < retries
      modifies this`state, this`role, this`peer, this`rx, this`rxExpect, this`partial, this`pending, this`sid,
          this`ackBody
      modifies this`inbox, this`stale, this`air, this`raised, this`acts, this`st
      ensures Valid() && Took(old(acts), acts, old(inbox), inbox)
      ensures reply.Granted? ==> AskedFor(old(st), st) && st.role == ISS
      ensures reply.TookData? || reply.Quiet? ==> SameRequest(old(st), st) && st.task.Asking? && st.state == CONNECTED
      ensures reply.PeerLeft? ==> st.state == IDLE && st.task.Resting? && st.acked == old(st.acked)
      ensures DataKeyed(air) == DataKeyed(old(air)) && AskKeyed(air) == AskKeyed(old(air)) + asked
      ensures HandsUp(old(st), old(raised), st, raised)
      ensures FloorRun(old(st), old(inbox), old(stale), attempt, retries)
           == FloorOn(Final(reply), reply, st, inbox, stale, next, retries, asked, said)
      ensures Only(air, ANSWERS) == Only(old(air), ANSWERS) + said
      ensures Final(reply) <==> reply.Granted? || reply.PeerLeft?
      ensures |inbox| + |stale| <= |old(inbox)| + |old(stale)| && next <= retries
      ensures Final(reply) || |inbox| + |stale| < |old(inbox)| + |old(stale)| || (reply.Quiet? && next == attempt + 1)
    {
      hide *;
      Fields();
      FinalIs();
      SameItself(st);
      SameAfter(st, st, st);
      HalfwayIs(st);
      WaitShrinks(inbox, FLOORS);
      ClockShrinks(inbox, stale);
      next, asked, said := attempt, 0, [];
      ghost var was, from, clock := st, inbox, stale;
      if partial != None && partial.value != [] {
        var gone := AbandonIfStale();
        if gone {
          GoneFields(was);
          FloorGone(was, from, clock, attempt, retries);
          GoneShrinks(from, clock);
          HandsUpNothing(was, raised, st);
          return PeerLeft, attempt, 0, [];
        }
        ghost var mid := acts;
        reply, said := TakePeerDataForFloor();
        SameAfter(was, was, st);
        TookOn(old(acts), mid, acts, from, from, inbox);
        FloorWaits(was, from, clock, attempt, retries, reply, st, said);
      } else {
        reply, said := AskOnce();
        SameAfter(was, was, st);
        TurnedSome(was, Found(from, FLOORS), reply, st, said);
        FloorAsks(was, from, clock, attempt, retries, reply, st, said);
        next, asked := attempt + 1, 1;
        if reply == TookData {
          next := 0;
        }
      }
    }

    /** Asks until the floor is granted; any DATA from the peer restarts the count. */
    method AcquireFloor(retries: nat) returns (reply: FloorReply)
      requires Valid() && st.task.Asking? && st.state == CONNECTED
      modifies this`state, this`role, this`peer, this`rx, this`rxExpect, this`partial, this`pending, this`sid,
          this`ackBody
      modifies this`inbox, this`stale, this`air, this`raised, this`acts, this`st
      ensures Valid() && Took(old(acts), acts, old(inbox), inbox)
      ensures reply.Granted? ==> AskedFor(old(st), st) && st.role == ISS
      ensures reply.Quiet? ==> st.task.Failed? && SameRequest(old(st), st.(task := old(st).task))
      ensures reply.PeerLeft? ==> st.state == IDLE && st.task.Resting? && st.acked == old(st.acked)
      ensures !reply.TookData?
      ensures DataKeyed(air) == DataKeyed(old(air))
      ensures HandsUp(old(st), old(raised), st, raised)
      ensures var run := FloorRun(old(st), old(inbox), old(stale), 0, retries);
        && reply == run.reply && st == run.st && inbox == run.rest && stale == run.stale
        && AskKeyed(air) == AskKeyed(old(air)) + run.asked
        && Only(air, ANSWERS) == Only(old(air), ANSWERS) + run.answers
    {
      hide *;
      SameItself(st);
      HandsUpNothing(st, raised, st);
      AddedNone(acts);
      TookNone(acts, acts, inbox);
      FloorStarts(st, inbox, stale, retries);
      ghost var asked: nat, said: seq<Frame> := 0, [];
      var attempt: nat := 0;
      while attempt < retries
        invariant HandsUp(old(st), old(raised), st, raised)
        invariant Valid() && Took(old(acts), acts, old(inbox), inbox)
        invariant SameRequest(old(st), st) && st.task.Asking? && st.state == CONNECTED
        invariant DataKeyed(air) == DataKeyed(old(air)) && AskKeyed(air) == AskKeyed(old(air)) + asked
        invariant Only(air, ANSWERS) == Only(old(air), ANSWERS) + said
        invariant FloorRun(old(st), old(inbox), old(stale), 0, retries)
               == FloorOn(false, Quiet, st, inbox, stale, attempt, retries, asked, said)
        decreases |inbox| + |stale|, retries - attempt
      {
        ghost var was, wasRaised, before, from, clock, tried := st, raised, acts, inbox, stale, attempt;
        ghost var more, words;
        reply, attempt, more, words := FloorTurn(attempt, retries);
        FloorGoesOn(was, from, clock, tried, retries, asked, said, reply, st, inbox, stale, attempt, more, words);
        asked, said := asked + more, said + words;
        SameAfter(old(st), was, st);
        TookOn(old(acts), before, acts, old(inbox), from, inbox);
        HandsUpOn(old(st), old(raised), was, wasRaised, st, raised);
        if reply == Granted || reply == PeerLeft {
          FloorEnds(reply, st, inbox, stale, attempt, retries, asked, said);
          return;
        }
      }
      FloorEnds(Quiet, st, inbox, stale, attempt, retries, asked, said);
      SameAfter(old(st), st, st);
      AskingActs(st, Disc);
      ghost var was, mid := st, acts;
      NotHearing(GiveUpFloor);
      Turn(GiveUpFloor);
      TookNone(mid, acts, inbox);
      TookOn(old(acts), mid, acts, old(inbox), inbox, inbox);
      HandsUpNothing(was, raised, st);
      HandsUpOn(old(st), old(raised), was, raised, st, raised);
      reply := Quiet;
    }

    // -- sending -----------------------------------------------------------------------

    /** Where the transmit mode stands on the ladder. */
    function Rung(): nat
      reads this`tx
    {
      reg.Index(tx.id)
    }

    method StepTxMode(up: bool)
      requires Ties()
      modifies this`tx
      ensures tx == StepMode(st, up).tx
    {
      var candidate := reg.Step(tx, up);
      if candidate == None {
        return;
      }
      if candidate.value.id !in peerModes {
        return;
      }
      tx := candidate.value;
    }

    /** One rung down or up, if the peer has it; a change clears the failure count. */
    method AdaptiveStep(up: bool)
      requires Valid() && st.task.Sending? && (st.hand.Some? ==> !up && state == CONNECTED)
      modifies this`tx, this`failures, this`acts, this`st
      ensures Valid() && Added(old(acts), acts, []) && st == old(st).(tx := tx) && st == StepMode(old(st), up)
      ensures tx != old(tx) <==> CanStep(old(st), up)
      ensures tx != old(tx) ==> Rung() == old(Rung()) + (if up then 1 else -1) && tx.id in peerModes && failures == 0
      ensures tx == old(tx) ==> failures == old(failures)
    {
      hide Perform, Do, React, Can, StepMode, RememberMode, Added;
      var before := tx;
      StepMoves(st, up);
      StepTxMode(up);
      if tx != before {
        failures := 0;
      }
      NoteShift(up);
    }

    ghost method NoteShift(up: bool)
      requires Sound() && st.task.Sending? && (st.hand.Some? ==> !up && st.state == CONNECTED)
      requires tx in reg.modes
      modifies this`acts, this`st
      ensures Sound() && Added(old(acts), acts, []) && st == StepMode(old(st), up)
    {
      hide Perform, Do, React, Can, StepMode, Added;
      if st.hand.Some? { SendingActs(st, Disc); } else { BetweenActs(st, up); }
      assert air + [] == air;
      StepTask(st, up);
      Note(Shift(up), air);
    }

    method RememberWorkingMode(modeId: nat)
      requires Ties() && modeId == tx.id
      modifies this`lastGood
      ensures lastGood == RememberMode(st)
    {
      if peer == None {
        return;
      }
      var p := peer.value;
      if p !in lastGood || !reg.Supports(lastGood[p]) || reg.Index(modeId) > reg.Index(lastGood[p]) {
        lastGood := lastGood[p := modeId];
      }
    }

    method KeyData(seqNo: nat, chunk: Bytes, eof: bool)
      requires Valid() && st.task.Sending? && st.hand == Some(Chunk(chunk, eof)) && state == CONNECTED
      requires seqNo == txSeq && |chunk| <= tx.chunkSize
      modifies this`air, this`acts, this`st
      ensures Valid() && Added(old(acts), acts, []) && st == old(st)
      ensures air == old(air) + [Data(seqNo, eof, chunk, tx.id)]
    {
      hide Perform, Do, React, Can, RememberMode, Added;
      SendingActs(st, Disc);
      ghost var keyed := air;
      TxPacket(Data(seqNo, eof, chunk, tx.id));
      Note(Key, keyed);
    }

    /** A packet that neither confirms nor ends anything. */
    ghost method Ignore(f: Frame)
      requires Valid() && st.task.Sending? && st.hand.Some? && state == CONNECTED
      requires f.FloorReq? || (f.DataAck? && !Confirms(st, f))
      modifies this`acts, this`st
      ensures Valid() && Added(old(acts), acts, [f]) && st == old(st)
    {
      hide Perform, Do, React, Can, RememberMode, Added;
      SendingActs(st, f);
      assert air + [] == air;
      Note(Hear(f), air);
    }

    /** Waits for the ACK of the chunk in hand: NoAck after silence or a floor request. */
    method AwaitAck(seqNo: nat) returns (r: ArqResult, ack: Option<Frame>)
      requires Valid() && st.task.Sending? && st.hand.Some? && st.state == CONNECTED && seqNo == st.txSeq
      modifies this`state, this`peer, this`sid, this`ackBody, this`lastGood, this`inbox, this`air, this`acts, this`st
      ensures Took(old(acts), Owing(acts, ack), old(inbox), inbox) && old(acts) <= acts
      ensures DataKeyed(air) == DataKeyed(old(air)) && (ack.Some? <==> r.Acked?)
      ensures r.Acked? ==> Confirmed(ack.value) && st == old(st)
      ensures r.NoAck? ==> Valid() && st == old(st)
      ensures r.PeerGone? ==> Valid() && st == Gone(old(st))
      ensures !r.Resize?
      ensures AckWait(r, inbox) == AwaitRun(old(st), old(inbox))
    {
      hide *;
      ack := None;
      AddedNone(acts);
      TookNone(acts, acts, inbox);
      while true
        invariant Valid() && st == old(st) && ack == None && DataKeyed(air) == DataKeyed(old(air))
        invariant Took(old(acts), acts, old(inbox), inbox) && old(acts) <= acts
        invariant AwaitRun(st, inbox) == AwaitRun(old(st), old(inbox))
        decreases |inbox|
      {
        Fields();
        Waits(st);
        ghost var was, before := acts, inbox;
        AwaitsNext(st, inbox);
        WaitShrinks(inbox, ACKS);
        var got := WaitPacket(ACKS);
        TookOn(old(acts), was, Owing(acts, got), old(inbox), before, inbox);
        OwingNone(acts);
        if got == None {
          return NoAck, None;
        }
        var f := got.value;
        Kinds(f);
        OneOf(f);
        ConfirmsMeans(st, f);
        ghost var mid := acts;
        if f.Disc? {
          KeyedMore(air, DiscAck);
          TakeDisc();
          Owed(mid, acts, got);
          TookOwed(old(acts), mid, acts, old(inbox), inbox, got);
          OwingNone(acts);
          return PeerGone, None;
        }
        if f.FloorReq? {
          Ignore(f);
          Owed(mid, acts, got);
          TookOwed(old(acts), mid, acts, old(inbox), inbox, got);
          OwingNone(acts);
          return NoAck, None;
        }
        if f.answered == seqNo && SeqAhead(f.expects, seqNo) == 1 && f.received == tx.id {
          Remember(f);
          return Acked, Some(f);
        }
        Ignore(f);
        Owed(mid, acts, got);
        TookOwed(old(acts), mid, acts, old(inbox), inbox, got);
      }
    }

    method Remember(ack: Frame)
      requires Valid() && st.task.Sending? && st.hand.Some? && state == CONNECTED && Confirms(st, ack)
      modifies this`lastGood
      ensures Confirmed(ack)
    {
      hide RememberMode, Perform;
      RememberWorkingMode(tx.id);
    }

    /** One keying of the chunk, and the wait for its answer. */
    method TryChunk(seqNo: nat, chunk: Bytes, eof: bool) returns (r: ArqResult, ack: Option<Frame>)
      requires Valid() && st.task.Sending? && st.hand == Some(Chunk(chunk, eof)) && st.state == CONNECTED
      requires seqNo == st.txSeq && |chunk| <= tx.chunkSize
      modifies this`state, this`peer, this`sid, this`ackBody, this`lastGood, this`inbox, this`air, this`acts, this`st
      ensures Took(old(acts), Owing(acts, ack), old(inbox), inbox) && old(acts) <= acts
      ensures DataKeyed(air) == DataKeyed(old(air)) + 1 && (ack.Some? <==> r.Acked?)
      ensures r.Acked? ==> Confirmed(ack.value) && st == old(st)
      ensures r.NoAck? ==> Valid() && st == old(st)
      ensures r.PeerGone? ==> Valid() && st == Gone(old(st))
      ensures !r.Resize?
      ensures AckWait(r, inbox) == AwaitRun(old(st), old(inbox))
    {
      hide *;
      Fields();
      ghost var before := air;
      KeyData(seqNo, chunk, eof);
      Grown(old(acts), acts, []);
      ghost var mid := acts;
      KeyedMore(before, Data(seqNo, eof, chunk, tx.id));
      TookNone(old(acts), acts, inbox);
      r, ack := AwaitAck(seqNo);
      TookOn(old(acts), mid, Owing(acts, ack), old(inbox), old(inbox), inbox);
    }

    /** A wait has brought no ACK: from the `stepDownAfter`-th in a row on, a step down. */
    method CountFailure()
      requires Valid() && st.task.Sending? && st.hand.Some? && st.state == CONNECTED
      modifies this`tx, this`failures, this`acts, this`st
      ensures Valid() && Added(old(acts), acts, []) && st == old(st).(tx := tx) && tx == st.tx
      ensures st == if old(failures) + 1 >= stepDownAfter then StepMode(old(st), false) else old(st)
      ensures failures == if st.tx != old(st.tx) then 0 else old(failures) + 1
      ensures st.tx != old(st.tx) ==> Rung() < old(Rung())
    {
      hide *;
      Fields();
      SameStation(st);
      AddedNone(acts);
      failures := failures + 1;
      if failures >= stepDownAfter {
        AdaptiveStep(false);
        Fields();
      }
    }

    /** Keys the chunk until it is acknowledged; a step down that leaves it too big stops for a re-cut. */
    method SendChunkWithArq(seqNo: nat, chunk: Bytes, eof: bool) returns (r: ArqResult, ack: Option<Frame>)
      requires Valid() && st.task.Sending? && st.hand == Some(Chunk(chunk, eof)) && st.state == CONNECTED
      requires seqNo == st.txSeq && |chunk| <= st.tx.chunkSize
      modifies this`state, this`peer, this`tx, this`sid, this`ackBody, this`lastGood, this`failures
      modifies this`inbox, this`air, this`acts, this`st
      ensures Took(old(acts), Owing(acts, ack), old(inbox), inbox) && old(acts) <= acts
      ensures DataKeyed(air) <= DataKeyed(old(air)) + maxRetries && (ack.Some? <==> r.Acked?)
      ensures r.Acked? ==> Confirmed(ack.value)
      ensures !r.Acked? ==> Valid()
      ensures !r.PeerGone? ==> st == old(st).(tx := tx) && Rung() <= old(Rung())
      ensures r.Resize? ==> |chunk| > tx.chunkSize && Rung() < old(Rung())
      ensures r.PeerGone? ==> st == Gone(old(st).(tx := tx))
      ensures DataKeyed(air) >= DataKeyed(old(air))
      ensures Arq(r, tx, inbox, failures, DataKeyed(air) - DataKeyed(old(air)))
           == ArqRun(old(st), old(inbox), old(failures), maxRetries, stepDownAfter)
    {
      hide *;
      Fields();
      AddedNone(acts);
      TookNone(acts, acts, inbox);
      SameStation(st);
      ArqStarts(st, inbox, failures, maxRetries, stepDownAfter);
      ArqBound(st, inbox, failures, maxRetries, stepDownAfter);
      var attempt := 1;
      while attempt <= maxRetries
        invariant 1 <= attempt <= maxRetries + 1 && Valid()
        invariant Took(old(acts), acts, old(inbox), inbox) && old(acts) <= acts
        invariant st == old(st).(tx := tx) && |chunk| <= tx.chunkSize && Rung() <= old(Rung())
        invariant DataKeyed(air) == DataKeyed(old(air)) + attempt - 1
        invariant ArqRun(old(st), old(inbox), old(failures), maxRetries, stepDownAfter)
               == ArqOn(false, NoAck, st, inbox, failures, maxRetries - (attempt - 1), stepDownAfter, attempt - 1)
      {
        ghost var was, from, count, before := st, inbox, failures, acts;
        ghost var left := maxRetries - (attempt - 1);
        Fields();
        r, ack := TryChunk(seqNo, chunk, eof);
        TookOn(old(acts), before, Owing(acts, ack), old(inbox), from, inbox);
        if r != NoAck {
          ArqSettles(was, from, count, left, stepDownAfter, attempt - 1);
          ArqEnds(r, was, inbox, count, left, stepDownAfter, attempt);
          return;
        }
        OwingNone(acts);
        ghost var mid := acts;
        CountFailure();
        Grown(mid, acts, []);
        TookNone(mid, acts, inbox);
        TookOn(old(acts), mid, acts, old(inbox), inbox, inbox);
        ArqFails(was, from, count, left, stepDownAfter, attempt - 1, st, failures);
        if |chunk| > tx.chunkSize {
          ArqEnds(Resize, st, inbox, failures, left - 1, stepDownAfter, attempt);
          OwingNone(acts);
          return Resize, None;
        }
        attempt := attempt + 1;
      }
      ArqEnds(NoAck, st, inbox, failures, 0, stepDownAfter, maxRetries);
      OwingNone(acts);
      return NoAck, None;
    }

    /** The chunk in hand is done with: the sequence advances with the acknowledgement. */
    method Advance(ack: Frame)
      requires Confirmed(ack)
      modifies this`txSeq, this`acts, this`st
      ensures Valid() && Added(old(acts), acts, [ack]) && st == TakeAck(old(st))
    {
      hide Perform, Do, React, Can, Confirms, RememberMode, Added;
      SendingActs(st, ack);
      txSeq := (txSeq + 1) % SEQ_MODULO;
      assert air + [] == air;
      Note(Hear(ack), air);
    }

    /** At most one step between chunks, the way the statistics lean. */
    method MaybeAdapt(allowChange: bool)
      requires Valid() && st.task.Sending? && st.hand.None?
      modifies this`tx, this`failures, this`hunches, this`acts, this`st
      ensures Valid() && Added(old(acts), acts, []) && st == old(st).(tx := tx)
      ensures Rung() < |reg.modes| && failures == 0
      ensures var lean := if allowChange && old(hunches) != [] then old(hunches)[0] else 0;
        && (tx != old(tx) <==> lean != 0 && CanStep(old(st), lean > 0))
        && (tx != old(tx) ==> Rung() == old(Rung()) + if lean > 0 then 1 else -1)
      ensures var w := Load(inbox, old(failures), old(hunches));
        st == Adapted(old(st), Lean(w, allowChange)) && Load(inbox, failures, hunches) == Leant(w, allowChange)
    {
      hide Perform, Do, React, Can, Added, StepMode;
      failures := 0;
      AddedNone(acts);
      RungOf(reg, tx);
      if !allowChange || hunches == [] {
        return;
      }
      var lean := hunches[0];
      hunches := hunches[1..];
      if lean != 0 {
        AdaptiveStep(lean > 0);
        RungOf(reg, tx);
      }
    }

    /** The next chunk, or the same one again smaller, is in hand. */
    ghost method CutHand()
      requires Valid() && st.task.Sending? && !st.task.finished && st.task.offset <= |st.task.data|
      requires ReadyToCut(st)
      modifies this`acts, this`st
      ensures Valid() && Added(old(acts), acts, [])
      ensures st == CutNow(old(st))
    {
      AddedNone(acts);
      hide Added;
      if st.hand != Some(CutAt(st.task.data, st.task.offset, st.tx.chunkSize)) {
        CutActs(st);
        hide Valid, Perform, Do, React, Can, CutAt;
        Turn(if st.hand.None? then Cut else Recut);
      }
    }

    /** The bytes the next DATA frame carries: as many as the current mode takes. */
    method NextChunk(data: Bytes, offset: nat) returns (chunk: Bytes, isLast: bool)
      requires Valid() && st.task == Sending(data, offset, false) && offset <= |data| && ReadyToCut(st)
      modifies this`acts, this`st
      ensures Valid() && Added(old(acts), acts, []) && st == old(st).(hand := Some(Chunk(chunk, isLast)))
      ensures |chunk| <= st.tx.chunkSize && st == CutNow(old(st))
      ensures offset + |chunk| <= |data| && chunk == data[offset..offset + |chunk|]
      ensures isLast <==> offset + |chunk| == |data|
      ensures !isLast ==> chunk != []
    {
      hide Valid, Ties, CutAt, ReadyToCut;
      Fields();
      RungOf(reg, tx);
      chunk := data[offset..Min(offset + tx.chunkSize, |data|)];
      CutIs(data, offset, tx.chunkSize, chunk);
      isLast := offset + |chunk| >= |data|;
      CutHand();
    }

    /** After an acknowledgement: on to the next sequence number, and perhaps another mode. */
    method ChunkDone(ack: Frame, allowChange: bool)
      requires Confirmed(ack) && st.state == CONNECTED
      modifies this`tx, this`txSeq, this`failures, this`hunches, this`acts, this`st
      ensures Valid() && Added(old(acts), acts, [ack]) && Rung() < |reg.modes|
      ensures st == TakeAck(old(st)).(tx := st.tx)
      ensures var w := Load(inbox, old(failures), old(hunches));
        && st == Adapted(TakeAck(old(st)), Lean(w, allowChange))
        && Load(inbox, failures, hunches) == Leant(w, allowChange)
    {
      hide *;
      ConfirmedHand(ack);
      TakenAck(st, st, st.tx, st.hand.value);
      Advance(ack);
      ghost var mid := acts;
      MaybeAdapt(allowChange);
      AddedOn(old(acts), mid, acts, [ack], []);
      assert [ack] + [] == [ack];
    }

    lemma ConfirmedHand(ack: Frame)
      requires Confirmed(ack)
      ensures st.task.Sending? && st.hand.Some?
    {
    }

    /** One chunk position: cut for the current mode, keyed until something comes of it. */
    method SendNext(data: Bytes, offset: nat) returns (result: ArqResult, chunk: Bytes, isLast: bool)
      requires Valid() && st.task == Sending(data, offset, false) && offset <= |data| && ReadyToCut(st)
      requires st.state == CONNECTED && Rung() < |reg.modes|
      modifies this`state, this`peer, this`tx, this`txSeq, this`sid, this`ackBody, this`lastGood, this`failures
      modifies this`hunches, this`inbox, this`air, this`acts, this`st
      ensures Valid() && Took(old(acts), acts, old(inbox), inbox) && Rung() < |reg.modes|
      ensures DataKeyed(old(air)) <= DataKeyed(air) <= DataKeyed(old(air)) + maxRetries
      ensures offset + |chunk| <= |data| && chunk == data[offset..offset + |chunk|]
      ensures (isLast <==> offset + |chunk| == |data|) && (!isLast ==> chunk != [])
      ensures result.Resize? || result.NoAck? ==> st == old(st).(tx := tx, hand := Some(Chunk(chunk, isLast)))
      ensures result.Resize? ==> |chunk| > st.tx.chunkSize && Rung() < old(Rung())
      ensures result.PeerGone? ==>
        st.state == IDLE && st.task.Resting? && st.acked == old(st.acked) && SameMail(old(st), st)
      ensures result.Acked? ==> Progressed(old(st), st, Chunk(chunk, isLast))
      ensures Chunked(old(st), Load(old(inbox), old(failures), old(hunches)), maxRetries, stepDownAfter, result, st,
                      Load(inbox, failures, hunches), DataKeyed(air) - DataKeyed(old(air)))
    {
      hide *;
      chunk, isLast := NextChunk(data, offset);
      TookNone(old(acts), acts, inbox);
      Fields();
      ghost var cut, mid := st, acts;
      ghost var run;
      result, run := WorkChunk(chunk, isLast);
      TookOn(old(acts), mid, acts, old(inbox), old(inbox), inbox);
      GoneFields(cut.(tx := run.tx));
      SameItself(old(st));
      MailBy(old(st), old(st), cut.(tx := run.tx));
      if result == PeerGone { MailOn(old(st), cut.(tx := run.tx), st); }
      if result == Acked { TakenAck(old(st), cut.(tx := run.tx), st.tx, Chunk(chunk, isLast)); }
      ChunkedIs(old(st), Load(old(inbox), old(failures), old(hunches)), maxRetries, stepDownAfter, run, st,
                Load(inbox, failures, hunches));
    }

    /** The chunk in hand is keyed until something comes of it; after its ACK the mode may move. */
    method WorkChunk(chunk: Bytes, isLast: bool) returns (result: ArqResult, ghost run: Arq)
      requires Valid() && st.task.Sending? && st.hand == Some(Chunk(chunk, isLast)) && st.state == CONNECTED
      requires |chunk| <= st.tx.chunkSize
      modifies this`state, this`peer, this`tx, this`txSeq, this`sid, this`ackBody, this`lastGood, this`failures
      modifies this`hunches, this`inbox, this`air, this`acts, this`st
      ensures Valid() && Took(old(acts), acts, old(inbox), inbox) && Rung() < |reg.modes|
      ensures run == ArqRun(old(st), old(inbox), old(failures), maxRetries, stepDownAfter) && result == run.result
      ensures DataKeyed(air) == DataKeyed(old(air)) + run.keyed && run.keyed <= maxRetries
      ensures Worked(old(st), Load(old(inbox), old(failures), old(hunches)), run, st, Load(inbox, failures, hunches))
      ensures result.Resize? || result.NoAck? ==> st == old(st).(tx := tx)
      ensures result.Resize? ==> |chunk| > st.tx.chunkSize && Rung() < old(Rung())
      ensures result.PeerGone? ==> st == Gone(old(st).(tx := run.tx))
      ensures result.Acked? ==> st == TakeAck(old(st).(tx := run.tx)).(tx := st.tx)
    {
      hide *;
      Fields();
      var starting := tx;
      var got;
      result, got := SendChunkWithArq(txSeq, chunk, isLast);
      run := Arq(result, tx, inbox, failures, DataKeyed(air) - DataKeyed(old(air)));
      if result == Acked {
        ghost var before := acts;
        ChunkDone(got.value, tx == starting);
        Owed(before, acts, got);
        TookOwed(old(acts), before, acts, old(inbox), inbox, got);
      } else {
        OwingNone(acts);
        InReach();
      }
      WorkedIs(old(st), Load(old(inbox), old(failures), old(hunches)), run, st, Load(inbox, failures, hunches));
    }

    lemma InReach()
      requires Valid()
      ensures Rung() < |reg.modes|
    {
      RungOf(reg, tx);
    }

    /** The message is sent, or given up on. */
    ghost method EndSending(a: Act)
      requires Valid() && st.task.Sending? && (a.GiveUpSend? || a.Done?)
      requires if a.Done? then st.hand.None? && st.task.finished else st.hand.Some?
      modifies this`acts, this`st
      ensures Valid() && Added(old(acts), acts, [])
      ensures st == if a.Done? then old(st).(sent := old(st).sent + [old(st).task.data], task := Resting)
                    else old(st).(task := Failed)
    {
      if a.Done? { BetweenActs(st, false); } else { GaveUp(st); }
      hide *;
      NotHearing(a);
      Turn(a);
    }

    /** Chunk by chunk, re-cutting when the mode has dropped, until the last is acknowledged. */
    method SendChunks(data: Bytes) returns (r: Outcome)
      requires Valid() && Carrying(st, st, data, 0) && st.role == ISS && AtChunk(st)
      modifies this`state, this`peer, this`tx, this`txSeq, this`sid, this`ackBody, this`lastGood, this`failures
      modifies this`hunches, this`inbox, this`air, this`acts, this`st
      ensures Valid() && Took(old(acts), acts, old(inbox), inbox) && |old(st.acked)| <= |st.acked|
      ensures r.Sent? || r.Unacknowledged? || r.Disconnected?
      ensures r.Sent? ==> st.task.Resting? && st.state == CONNECTED && st.role == ISS && Carried(old(st), st, data)
      ensures r.Unacknowledged? ==> st.task.Failed? && st.state == CONNECTED
      ensures r.Disconnected? ==> st.task.Resting? && st.state == IDLE
      ensures var positions := |st.acked| - |old(st.acked)| + (if r.Sent? then 0 else 1);
        KeyedWithin(DataKeyed(old(air)), DataKeyed(air), maxRetries, |reg.modes|, positions)
      ensures SameMail(old(st), st) && DataKeyed(air) >= DataKeyed(old(air))
      ensures Send(r, st, Load(inbox, failures, hunches), DataKeyed(air) - DataKeyed(old(air)))
           == SendRun(old(st), Load(old(inbox), old(failures), old(hunches)), maxRetries, stepDownAfter)
    {
      hide *;
      InReach();
      AddedNone(acts);
      TookNone(acts, acts, inbox);
      ghost var s0, keyed, done := st, DataKeyed(air), 0;
      var offset := 0;
      Spent(maxRetries, |reg.modes|, 0, Rung(), Rung());
      SendStarts(st, Load(inbox, failures, hunches), maxRetries, stepDownAfter);
      while true
        invariant Valid() && Took(old(acts), acts, old(inbox), inbox) && st.role == ISS && Rung() < |reg.modes|
        invariant Carrying(s0, st, data, offset) && |st.acked| == |s0.acked| + done && AtChunk(st)
        invariant keyed <= DataKeyed(air) <= keyed + Allowance(maxRetries, |reg.modes|, done, Rung())
        invariant SendRun(s0, Load(old(inbox), old(failures), old(hunches)), maxRetries, stepDownAfter)
               == SendOn(st, Load(inbox, failures, hunches), maxRetries, stepDownAfter, DataKeyed(air) - keyed)
        decreases |data| - offset, Rung()
      {
        ghost var was, rung, from, mid, spent := st, Rung(), inbox, acts, DataKeyed(air);
        ghost var w := Load(inbox, failures, hunches);
        CarryFacts(s0, st, data, offset);
        var result, chunk, isLast := SendNext(data, offset);
        TookOn(old(acts), mid, acts, old(inbox), from, inbox);
        SendGoesOn(was, w, maxRetries, stepDownAfter, spent - keyed, result, st, Load(inbox, failures, hunches),
                   DataKeyed(air) - spent);
        Spent(maxRetries, |reg.modes|, done, rung, Rung());
        if result == Resize {
          CarryRecuts(s0, was, st, data, offset);
          continue;
        }
        if result == PeerGone {
          MailOn(s0, was, st);
          BudgetOf(keyed, DataKeyed(air), maxRetries, |reg.modes|, done + 1);
          return Disconnected;
        }
        if result == NoAck {
          BudgetOf(keyed, DataKeyed(air), maxRetries, |reg.modes|, done + 1);
          ghost var before := acts;
          EndSending(GiveUpSend);
          TookNone(before, acts, inbox);
          TookOn(old(acts), before, acts, old(inbox), inbox, inbox);
          MailBy(s0, was, st);
          return Unacknowledged;
        }
        CarriesOn(s0, was, st, data, offset, Chunk(chunk, isLast));
        offset, done := offset + |chunk|, done + 1;
        if isLast {
          BudgetOf(keyed, DataKeyed(air), maxRetries, |reg.modes|, done);
          ghost var last, before := st, acts;
          EndSending(Done);
          TookNone(before, acts, inbox);
          TookOn(old(acts), before, acts, old(inbox), inbox, inbox);
          MailBy(s0, last, st);
          return Outcome.Sent;
        }
      }
    }

    /** Whether by holding the floor already or by asking for it. */
    method TakeFloor(data: Bytes) returns (reply: FloorReply)
      requires Valid() && st.state == CONNECTED
      requires if st.role == ISS
               then st.task == Sending(data, 0, false) && st.hand == Some(CutAt(data, 0, st.tx.chunkSize))
               else st.task == Asking(data)
      modifies this`state, this`role, this`peer, this`rx, this`rxExpect, this`partial, this`pending, this`sid,
          this`ackBody
      modifies this`inbox, this`stale, this`air, this`raised, this`acts, this`st
      ensures Valid() && Took(old(acts), acts, old(inbox), inbox)
      ensures !reply.TookData? && DataKeyed(air) == DataKeyed(old(air))
      ensures HandsUp(old(st), old(raised), st, raised) && st.acked == old(st.acked)
      ensures reply.Granted? ==> st.sent == old(st.sent) && AtChunk(st)
      ensures reply.Granted? ==> Carrying(st, st, data, 0) && st.role == ISS
      ensures reply.Quiet? ==> st.task.Failed? && st.state == CONNECTED
      ensures reply.PeerLeft? ==> st.task.Resting? && st.state == IDLE
      ensures if old(st).role == ISS then reply.Granted? && st == old(st) && inbox == old(inbox) && stale == old(stale)
              else
                var run := FloorRun(old(st), old(inbox), old(stale), 0, maxRetries);
                reply == run.reply && st == run.st && inbox == run.rest && stale == run.stale
    {
      hide *;
      Fields();
      AddedNone(acts);
      if role == ISS {
        HandsUpNothing(st, raised, st);
        TookNone(acts, acts, inbox);
        CarryStarts(st, data);
        ChunkStarts(st, data);
        return Granted;
      }
      reply := AcquireFloor(maxRetries);
      Fields();
      if reply == Granted {
        FloorCame(old(st), st);
        CarryStarts(st, data);
        ChunkStarts(st, data);
      } else if reply == Quiet {
        SameAfter(old(st), st.(task := old(st).task), st);
      }
    }

    /** The rest of send_message, once the call to send has begun at station `s0`. */
    method Deliver(data: Bytes, ghost s0: Station) returns (r: Outcome)
      requires Valid() && st.state == CONNECTED && Ready(s0)
      requires st == if s0.role.ISS? then BeginSending(WithMessage(s0, data), data) else AskingFor(s0, data)
      requires if st.role == ISS
               then st.task == Sending(data, 0, false) && st.hand == Some(CutAt(data, 0, st.tx.chunkSize))
               else st.task == Asking(data)
      requires (st.role == ISS <==> s0.role.ISS?) && st.acked == s0.acked && st.sent == s0.sent
      modifies this`state, this`role, this`peer, this`tx, this`rx, this`txSeq, this`rxExpect, this`partial, this`pending
      modifies this`sid, this`ackBody, this`lastGood, this`failures, this`hunches
      modifies this`inbox, this`stale, this`air, this`raised, this`acts, this`st
      ensures Valid() && Took(old(acts), acts, old(inbox), inbox) && !r.NotConnected?
      ensures r.Sent? ==> st.task.Resting? && st.state == CONNECTED && st.role == ISS
      ensures r.Sent? ==> Carried(s0, st, data)
      ensures r.NoFloor? || r.Unacknowledged? ==> st.task.Failed? && st.state == CONNECTED
      ensures r.Disconnected? ==> st.task.Resting? && st.state == IDLE
      ensures r.NoFloor? ==> DataKeyed(air) == DataKeyed(old(air)) && st.acked == s0.acked
      ensures |s0.acked| <= |st.acked| && DataKeyed(old(air)) <= DataKeyed(air)
      ensures var positions := |st.acked| - |s0.acked| + (if r.Sent? then 0 else 1);
        KeyedWithin(DataKeyed(old(air)), DataKeyed(air), maxRetries, |reg.modes|, positions)
      ensures HandsUp(old(st), old(raised), st, raised)
      ensures Whole(r, st, Load(inbox, failures, hunches), stale, DataKeyed(air) - DataKeyed(old(air)))
           == MessageRun(s0, data, Load(old(inbox), old(failures), old(hunches)), old(stale), maxRetries, stepDownAfter)
    {
      hide *;
      NoneKeyed(DataKeyed(air), maxRetries, |reg.modes|);
      var reply := TakeFloor(data);
      MessageParts(s0, data, Load(old(inbox), failures, hunches), old(stale), maxRetries, stepDownAfter, reply, st,
                   inbox, stale);
      if reply == PeerLeft {
        return Disconnected;
      }
      if reply != Granted {
        return NoFloor;
      }
      ghost var s2, mid, from := st, acts, inbox;
      r := SendChunks(data);
      TookOn(old(acts), mid, acts, old(inbox), from, inbox);
      SameCarried(s0, s2, st, data);
      MailAfter(old(st), old(raised), s2, raised, st);
    }

    method SendMessage(data: Bytes) returns (r: Outcome)
      requires Valid() && st.task.Resting?
      modifies this`state, this`role, this`peer, this`tx, this`rx, this`txSeq, this`rxExpect, this`partial, this`pending
      modifies this`sid, this`ackBody, this`lastGood, this`failures, this`hunches
      modifies this`inbox, this`stale, this`air, this`raised, this`acts, this`st
      ensures Valid() && Took(old(acts), acts, old(inbox), inbox)
      ensures r.NotConnected? <==> old(st.state) != CONNECTED
      ensures r.NotConnected? ==> st == old(st) && air == old(air) && raised == old(raised)
      ensures r.Sent? ==> st.task.Resting? && st.state == CONNECTED && st.role == ISS
      ensures r.Sent? ==> Carried(old(st), st, data)
      ensures r.NoFloor? || r.Unacknowledged? ==> st.task.Failed? && st.state == CONNECTED
      ensures r.Disconnected? ==> st.task.Resting? && st.state == IDLE
      ensures r.NoFloor? ==> DataKeyed(air) == DataKeyed(old(air)) && st.acked == old(st.acked)
      ensures |old(st.acked)| <= |st.acked| && DataKeyed(old(air)) <= DataKeyed(air)
      ensures var positions := |st.acked| - |old(st.acked)| + (if r.Sent? then 0 else 1);
        KeyedWithin(DataKeyed(old(air)), DataKeyed(air), maxRetries, |reg.modes|, positions)
      ensures !r.NotConnected? ==> HandsUp(old(st).(given := old(st).given + [data]), old(raised), st, raised)
      ensures !r.NotConnected? ==> Ready(old(st))
      ensures !r.NotConnected? ==>
        Whole(r, st, Load(inbox, failures, hunches), stale, DataKeyed(air) - DataKeyed(old(air)))
          == MessageRun(old(st), data, Load(old(inbox), old(failures), old(hunches)), old(stale), maxRetries,
                        stepDownAfter)
    {
      hide *;
      Fields();
      NoneKeyed(DataKeyed(air), maxRetries, |reg.modes|);
      AddedNone(acts);
      TookNone(acts, acts, inbox);
      if state != CONNECTED {
        return NotConnected;
      }
      ReadyIs(st);
      StartActs(st, data);
      ghost var s0 := st;
      NotHearing(StartSend(data));
      Turn(StartSend(data));
      ghost var s1, started := st, acts;
      TookNone(old(acts), acts, inbox);
      StartedAs(s0, s1, data);
      r := Deliver(data, s0);
      TookOn(old(acts), started, acts, old(inbox), old(inbox), inbox);
      StartedMail(s0, s1, data, old(raised), st, raised);
    }

    // -- the handshake -----------------------------------------------------------------

    /** Throws away whatever is already in the packet queue: in the script, all up to a silence. */
    method DrainPackets()
      modifies this`inbox
      ensures inbox == Drained(old(inbox)) && |inbox| <= |old(inbox)|
    {
      ghost var n := 0;
      while inbox != []
        invariant n <= |old(inbox)| && inbox == old(inbox)[n..]
        invariant forall k :: 0 <= k < n ==> old(inbox)[k].Heard?
        decreases |inbox|
      {
        var head := inbox[0];
        inbox := inbox[1..];
        if head == Silence {
          EndsHere(old(inbox), {}, n);
          return;
        }
        n := n + 1;
      }
      EndsHere(old(inbox), {}, n);
    }

    method ResetSequenceState()
      modifies this`partial, this`pending, this`txSeq, this`rxExpect
      ensures partial == None && pending == [] && txSeq == 0 && rxExpect == 0
    {
      partial := None;
      pending := [];
      txSeq := 0;
      rxExpect := 0;
    }

    /** The session begins: profiles by direction, role, counters at zero. */
    method Begin(src: string, modes: seq<nat>, txId: nat, rxId: nat, r: Role)
      modifies this`state, this`role, this`peer, this`peerModes, this`tx, this`rx
      modifies this`partial, this`pending, this`txSeq, this`rxExpect
      ensures peer == Some(src) && peerModes == (set m | m in modes) && state == CONNECTED && role == r
      ensures tx == reg.Resolve(txId) && rx == reg.Resolve(rxId)
      ensures partial == None && pending == [] && txSeq == 0 && rxExpect == 0
    {
      peer := Some(src);
      peerModes := set m | m in modes;
      tx := reg.Resolve(txId);
      rx := reg.Resolve(rxId);
      state := CONNECTED;
      role := r;
      ResetSequenceState();
    }

    method BeginCall(dst: string, newSid: nat) returns (body: Frame)
      requires Valid() && st.task.Resting? && newSid > 0
      modifies this`state, this`sid, this`acts, this`st
      ensures Valid() && Added(old(acts), acts, []) && st == InCall(old(st), dst, newSid)
      ensures body == st.task.body == CallBody(old(st), dst, newSid)
    {
      hide Perform, Do, React, Can;
      CallActs(st, dst, newSid);
      state := CONNECTING;
      var proposed := reg.control.id;
      if dst in lastGood && reg.Supports(lastGood[dst]) {
        proposed := lastGood[dst];
      }
      sid := newSid;
      body := Frame.Connect(call, dst, reg.Ids(), proposed, sid);
      assert air + [] == air;
      Note(Call(dst, newSid), air);
    }

    method KeyCall(body: Frame)
      requires Valid() && st.task.Calling? && body == st.task.body
      modifies this`air, this`acts, this`st
      ensures Valid() && Added(old(acts), acts, []) && st == old(st) && air == old(air) + [body]
    {
      hide Perform, Do, React, Can;
      CallingActs(st, Disc);
      ghost var keyed := air;
      TxPacket(body);
      Note(KeyConnect, keyed);
    }

    /** Takes a CONNECT_ACK, unless it is for another station or answers another call. */
    method TakeAnswer(ack: Frame) returns (ok: bool)
      requires Valid() && st.task.Calling? && ack.ConnectAck?
      modifies this`state, this`role, this`peer, this`peerModes, this`tx, this`rx, this`txSeq, this`rxExpect
      modifies this`partial, this`pending, this`acts, this`st
      ensures Valid() && Added(old(acts), acts, [ack])
      ensures ok <==> ack.dst == call && ack.sid == old(st.sid)
      ensures st == if ok then TakeConnectAck(old(st), ack) else old(st)
    {
      hide Perform, Do, React, Can, TakeConnectAck, ResetSequence, DataKeyed, Added;
      hide Registry.Resolve, Registry.Index, Registry.IndexFrom, Registry.Supports, Registry.Valid;
      CallingActs(st, ack);
      assert air + [] == air;
      ok := ack.dst == call && ack.sid == sid;
      if ok {
        Begin(ack.src, ack.modes, ack.accepted, ack.own, ISS);
        ResolveKnown(reg, ack.accepted);
        BegunCall(st, ack);
      }
      Note(Hear(ack), air);
    }

    method GiveUpCalling()
      requires Valid() && st.task.Calling?
      modifies this`state, this`sid, this`air, this`acts, this`st
      ensures Valid() && Added(old(acts), acts, []) && air == old(air) + [Disc]
      ensures st == old(st).(state := IDLE, sid := 0, task := Resting)
    {
      hide Perform, Do, React, Can;
      CallingActs(st, Disc);
      ghost var keyed := air;
      TxPacket(Disc);
      state := IDLE;
      sid := 0;
      Note(GiveUpCall, keyed);
    }

    /** `newSid` is the fresh session id: one for the whole retry sequence. */
    method Connect(dst: string, retries: nat, newSid: nat) returns (ok: bool, ghost ack: Frame)
      requires Valid() && st.task.Resting? && newSid > 0
      modifies this`state, this`role, this`peer, this`peerModes, this`tx, this`rx, this`txSeq, this`rxExpect
      modifies this`partial, this`pending, this`sid, this`inbox, this`air, this`acts, this`st
      ensures Valid() && Took(old(acts), acts, Drained(old(inbox)), inbox) && |inbox| <= |old(inbox)|
      ensures ok ==> ack.ConnectAck? && ack.dst == old(st.call) && ack.sid == newSid
      ensures ok ==> st == TakeConnectAck(InCall(old(st), dst, newSid), ack) && Opened(st)
      ensures !ok ==> st == InCall(old(st), dst, newSid).(state := IDLE, sid := 0, task := Resting)
      ensures var run := CallRun(old(st.call), newSid, Drained(old(inbox)), retries);
        && (if ok then run.ack == Some(ack) else run.ack.None?) && inbox == run.rest
        && air == old(air) + Copies(CallBody(old(st), dst, newSid), run.keyed) + if ok then [] else [Disc]
    {
      hide *;
      DrainPackets();
      ghost var from := inbox;
      var body := BeginCall(dst, newSid);
      ghost var calling := st;
      NoCopies(body, air);
      TookNone(old(acts), acts, inbox);
      CallStarts(calling.call, newSid, inbox, retries);
      ack := Disc;
      for attempt := 0 to retries
        invariant Valid() && Took(old(acts), acts, from, inbox) && st == calling && |inbox| <= |from|
        invariant air == old(air) + Copies(body, attempt)
        invariant CallRun(calling.call, newSid, from, retries)
               == CallOn(calling.call, newSid, inbox, retries - attempt, attempt)
      {
        ghost var was, before := acts, inbox;
        CopiesMore(body, attempt, old(air));
        CallsOnce(calling.call, newSid, inbox, retries - attempt, attempt);
        ok, ack := TryCall(body);
        TookOn(old(acts), was, acts, from, before, inbox);
        NewSession(calling, ack);
        if ok {
          assert air + [] == air;
          return;
        }
      }
      CallEnds(calling.call, newSid, inbox, retries);
      ghost var was := acts;
      GiveUpCalling();
      TookNone(was, acts, inbox);
      TookOn(old(acts), was, acts, from, inbox, inbox);
      ok := false;
    }

    /** CONNECT is keyed once, and the answer waited for. */
    method TryCall(body: Frame) returns (ok: bool, ghost ack: Frame)
      requires Valid() && st.task.Calling? && body == st.task.body && st.state.CONNECTING?
      modifies this`state, this`role, this`peer, this`peerModes, this`tx, this`rx, this`txSeq, this`rxExpect
      modifies this`partial, this`pending, this`inbox, this`air, this`acts, this`st
      ensures Valid() && Took(old(acts), acts, old(inbox), inbox) && |inbox| <= |old(inbox)|
      ensures air == old(air) + [body] && inbox == Rest(old(inbox), {KConnectAck})
      ensures ok <==> AnswersCall(Found(old(inbox), {KConnectAck}), old(st).call, old(st).sid)
      ensures ok ==> Found(old(inbox), {KConnectAck}) == Some(ack)
      ensures ok ==> ack.ConnectAck? && ack.dst == old(st).call && ack.sid == old(st).sid
      ensures st == if ok then TakeConnectAck(old(st), ack) else old(st)
    {
      hide *;
      ok, ack := false, Disc;
      KeyCall(body);
      TookNone(old(acts), acts, inbox);
      Grown(old(acts), acts, []);
      ghost var mid := acts;
      Waits(st);
      CallerSilent(st, inbox[..EndsAt(inbox, {KConnectAck})]);
      WaitShrinks(inbox, {KConnectAck});
      var got := WaitPacket({KConnectAck});
      TookOn(old(acts), mid, Owing(acts, got), old(inbox), old(inbox), inbox);
      assert air + [] == air;
      OwingNone(acts);
      NoAnswer(st.call, st.sid);
      if got != None {
        Kinds(got.value);
        AnswersIs(got.value, st.call, st.sid);
        Fields();
        ghost var heard := acts;
        ok := TakeAnswer(got.value);
        ack := got.value;
        Owed(heard, acts, got);
        TookOwed(old(acts), heard, acts, old(inbox), inbox, got);
      }
    }

    method BeginListening()
      requires Valid() && st.task.Resting?
      modifies this`state, this`acts, this`st
      ensures Valid() && Added(old(acts), acts, []) && st == old(st).(state := LISTENING, task := Answering)
    {
      hide Perform, Do, React, Can;
      ListenActs(st);
      state := LISTENING;
      assert air + [] == air;
      Note(Listen, air);
    }

    /** The answer to a CONNECT: its mode if we have it, and our own remembered one if the caller has it. */
    method ComposeAnswer(c: Frame) returns (ack: Frame)
      requires c.Connect? && Ties()
      ensures ack == Answer(st, c)
    {
      var negotiated := if reg.Supports(c.proposed) then c.proposed else reg.control.id;
      var own := reg.control.id;
      if c.src in lastGood && reg.Supports(lastGood[c.src]) && lastGood[c.src] in c.modes {
        own := lastGood[c.src];
      }
      ack := ConnectAck(call, c.src, reg.Ids(), negotiated, own, c.sid);
    }

    /** Identity and stored answer first, so that a retry arriving during the keying can be re-answered. */
    method Establish(c: Frame, ack: Frame)
      requires c.Connect? && ack.ConnectAck?
      modifies this`state, this`role, this`peer, this`peerModes, this`tx, this`rx, this`txSeq, this`rxExpect
      modifies this`partial, this`pending, this`sid, this`ackBody, this`air
      ensures sid == c.sid && ackBody == Some(ack) && air == old(air) + [ack]
      ensures peer == Some(c.src) && peerModes == (set m | m in c.modes) && state == CONNECTED && role == IRS
      ensures tx == reg.Resolve(ack.own) && rx == reg.Resolve(ack.accepted)
      ensures partial == None && pending == [] && txSeq == 0 && rxExpect == 0
    {
      sid := c.sid;
      ackBody := Some(ack);
      TxPacket(ack);
      Begin(c.src, c.modes, ack.own, ack.accepted, IRS);
    }

    method AcceptCall(c: Frame)
      requires Valid() && st.task.Answering? && c.Connect? && c.dst == call
      modifies this`state, this`role, this`peer, this`peerModes, this`tx, this`rx, this`txSeq, this`rxExpect
      modifies this`partial, this`pending, this`sid, this`ackBody, this`air, this`acts, this`st
      ensures Valid() && Added(old(acts), acts, [c])
      ensures st == Accept(old(st), c).st && air == old(air) + [Answer(old(st), c)]
    {
      hide Perform, Do, React, Can, Accept, ResetSequence, Answer, Remembered, DataKeyed, Added;
      hide Registry.Resolve, Registry.Index, Registry.IndexFrom, Registry.Supports, Registry.Valid;
      AnsweringActs(st, c);
      BegunAnswer(st, c);
      ghost var keyed := air;
      var ack := ComposeAnswer(c);
      Establish(c, ack);
      ResolveKnown(reg, ack.own);
      Note(Hear(c), keyed);
    }

    /** Waits, once what was queued is gone, for a CONNECT, and answers it if it is for this station. */
    method ListenOnce() returns (caller: Option<string>)
      requires Valid() && st.task.Resting?
      modifies this`state, this`role, this`peer, this`peerModes, this`tx, this`rx, this`txSeq, this`rxExpect
      modifies this`partial, this`pending, this`sid, this`ackBody, this`inbox, this`air, this`acts, this`st
      ensures Valid() && Took(old(acts), acts, Drained(old(inbox)), inbox) && |inbox| <= |old(inbox)|
      ensures inbox == Rest(Drained(old(inbox)), {KConnect})
      ensures var call := Found(Drained(old(inbox)), {KConnect});
        && caller == (if call.Some? && call.value.Connect? && call.value.dst == old(st.call) then Some(call.value.src)
                      else None)
        && (caller.None? ==> st == old(st).(state := LISTENING))
        && (caller.Some? ==> Opened(st) && st == Accept(old(st).(state := LISTENING, task := Answering), call.value).st)
    {
      hide *;
      DrainPackets();
      BeginListening();
      Fields();
      Waits(st);
      WaitShrinks(inbox, {KConnect});
      ghost var from, before := inbox, acts;
      TookNone(old(acts), acts, inbox);
      Grown(old(acts), acts, []);
      var got := WaitPacket({KConnect});
      TookOn(old(acts), before, Owing(acts, got), from, from, inbox);
      AnsweringActs(st, Disc);
      ghost var mid := acts;
      if got == None {
        OwingNone(acts);
        NotHearing(StopListening);
        Turn(StopListening);
        TookNone(mid, acts, inbox);
        TookOn(old(acts), mid, acts, from, inbox, inbox);
        return None;
      }
      var c := got.value;
      Kinds(c);
      AnsweringActs(st, c);
      HeardIs(c);
      if c.dst != call {
        Turn(Hear(c));
        Owed(mid, acts, got);
        TookOwed(old(acts), mid, acts, from, inbox, got);
        return None;
      }
      NewSession(st, c);
      AcceptCall(c);
      Owed(mid, acts, got);
      TookOwed(old(acts), mid, acts, from, inbox, got);
      return Some(c.src);
    }
  }

  /**
   Two objects whose acts are those of a run of the net from where they began: the run leads to where
   the objects are, and no failed call in it lets its station carry on.
   */
  lemma ObjectsRun(a: Link, b: Link, n0: Net, moves: seq<Move>, n: Net)
    requires a.Valid() && b.Valid() && Reaches(n0, moves, n)
    requires n0.me == a.origin && n0.you == b.origin && MyActs(moves) == a.acts && YourActs(moves) == b.acts
    ensures n.me == a.st && n.you == b.st && ReachesObediently(n0, moves, n)
  {
    hide Reaches, Perform, MyActs, YourActs;
    NetPerforms(n0, moves, n);
    ObeysByActs(n0, moves, n);
  }
}
