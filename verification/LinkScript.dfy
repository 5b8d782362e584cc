/**
 What the script of arrivals makes of each blocking call of the Link object: how it ends, where it leaves
 the station and the script, and what it has keyed by then. The methods of class Link are proved to do exactly
 this; what the calls promise is proved here of these functions.
 */
module LinkScript {
  import opened Common
  import opened LinkStation
  import opened LinkMessages
  import opened LinkActs

  datatype FloorReply = Granted | TookData | Quiet | PeerLeft
  datatype ArqResult = Acked | Resize | NoAck | PeerGone
  datatype Outcome = Sent | NotConnected | NoFloor | Unacknowledged | Disconnected
  datatype Received = Message(bytes: Bytes) | Nothing | NoLink

  // -- every packet taken is heard -----------------------------------------------------------------

  /** The frames heard in a list of acts. */
  function HeardIn(acts: seq<Act>): seq<Frame> {
    if acts == [] then []
    else
      var last := acts[|acts| - 1];
      HeardIn(acts[..|acts| - 1]) + if last.Hear? then [last.frame] else []
  }

  function FramesOf(arrivals: seq<Arrival>): seq<Frame> {
    if arrivals == [] then []
    else
      var last := arrivals[|arrivals| - 1];
      FramesOf(arrivals[..|arrivals| - 1]) + if last.Heard? then [last.frame] else []
  }

  /** Acts have been added in which just these frames were heard. */
  ghost predicate Added(acts: seq<Act>, acts': seq<Act>, heard: seq<Frame>) {
    acts <= acts' && HeardIn(acts') == HeardIn(acts) + heard
  }

  /** What is left of a script. */
  predicate Leaves(inbox: seq<Arrival>, rest: seq<Arrival>) {
    |rest| <= |inbox| && rest == inbox[|inbox| - |rest|..]
  }

  /** The script has been worked through down to `rest`, and every packet taken from it heard, in its order. */
  ghost predicate Took(acts: seq<Act>, acts': seq<Act>, inbox: seq<Arrival>, rest: seq<Arrival>) {
    Leaves(inbox, rest) && Added(acts, acts', FramesOf(inbox[..|inbox| - |rest|]))
  }

  function HeardOf(a: Act): seq<Frame> {
    if a.Hear? then [a.frame] else []
  }

  lemma AddedOne(acts: seq<Act>, a: Act)
    ensures Added(acts, acts + [a], HeardOf(a))
  {
    assert (acts + [a])[..|acts|] == acts;
  }

  lemma NotHearing(a: Act)
    requires !a.Hear?
    ensures HeardOf(a) == []
  {
  }

  lemma HeardIs(f: Frame)
    ensures HeardOf(Hear(f)) == [f]
  {
  }

  lemma Grown(acts: seq<Act>, acts': seq<Act>, heard: seq<Frame>)
    requires Added(acts, acts', heard)
    ensures acts <= acts'
  {
  }

  lemma AddedNone(acts: seq<Act>)
    ensures Added(acts, acts, [])
  {
  }

  lemma AddedOn(acts: seq<Act>, acts': seq<Act>, acts'': seq<Act>, h: seq<Frame>, g: seq<Frame>)
    requires Added(acts, acts', h) && Added(acts', acts'', g)
    ensures Added(acts, acts'', h + g)
  {
  }

  lemma {:induction false} FramesJoin(p: seq<Arrival>, q: seq<Arrival>)
    ensures FramesOf(p + q) == FramesOf(p) + FramesOf(q)
    decreases |q|
  {
    if q == [] {
      assert p + q == p;
    } else {
      var init := q[..|q| - 1];
      FramesJoin(p, init);
      assert (p + q)[..|p + q| - 1] == p + init;
    }
  }

  lemma TookNone(acts: seq<Act>, acts': seq<Act>, inbox: seq<Arrival>)
    requires Added(acts, acts', [])
    ensures Took(acts, acts', inbox, inbox)
  {
  }

  /** The next packet is taken and heard, or the silence that ends a wait passes. */
  lemma TookOne(acts: seq<Act>, acts': seq<Act>, inbox: seq<Arrival>)
    requires inbox != [] && Added(acts, acts', if inbox[0].Heard? then [inbox[0].frame] else [])
    ensures Took(acts, acts', inbox, inbox[1..])
  {
    assert inbox[..1] == [inbox[0]];
    assert [inbox[0]][..0] == [];
  }

  lemma TookOn(acts: seq<Act>, acts': seq<Act>, acts'': seq<Act>, inbox: seq<Arrival>, mid: seq<Arrival>,
               rest: seq<Arrival>)
    requires Took(acts, acts', inbox, mid) && Took(acts', acts'', mid, rest)
    ensures Took(acts, acts'', inbox, rest)
  {
    var m, n := |inbox| - |mid|, |mid| - |rest|;
    assert inbox[..m + n] == inbox[..m] + mid[..n];
    FramesJoin(inbox[..m], mid[..n]);
    AddedOn(acts, acts', acts'', FramesOf(inbox[..m]), FramesOf(mid[..n]));
    hide FramesOf, Added;
  }

  lemma TookMeans(acts: seq<Act>, acts': seq<Act>, inbox: seq<Arrival>, rest: seq<Arrival>)
    requires Took(acts, acts', inbox, rest)
    ensures |rest| <= |inbox| && acts <= acts'
  {
  }

  /** The acts once the packet a wait has brought, still in hand, is heard as well. */
  function Owing(acts: seq<Act>, got: Option<Frame>): seq<Act> {
    if got.Some? then acts + [Hear(got.value)] else acts
  }

  lemma NothingTaken(acts: seq<Act>, inbox: seq<Arrival>)
    ensures Added(acts, acts, FramesOf(inbox[..0]))
  {
    assert inbox[..0] == [];
  }

  lemma FramesMore(inbox: seq<Arrival>, n: nat)
    requires n < |inbox|
    ensures FramesOf(inbox[..n + 1]) == FramesOf(inbox[..n]) + if inbox[n].Heard? then [inbox[n].frame] else []
  {
    assert inbox[..n + 1][..n] == inbox[..n];
  }

  /** The arrival after the first `n` ends the wait: silence, or a packet that is still to be heard. */
  lemma TakesOne(acts: seq<Act>, acts': seq<Act>, inbox: seq<Arrival>, n: nat)
    requires n < |inbox| && Added(acts, acts', FramesOf(inbox[..n]))
    ensures Took(acts, if inbox[n].Heard? then acts' + [Hear(inbox[n].frame)] else acts', inbox, inbox[n..][1..])
  {
    FramesMore(inbox, n);
    assert inbox[n..][1..] == inbox[n + 1..];
    if inbox[n].Heard? {
      AddedOne(acts', Hear(inbox[n].frame));
      AddedOn(acts, acts', acts' + [Hear(inbox[n].frame)], FramesOf(inbox[..n]), [inbox[n].frame]);
    }
    hide FramesOf, Added;
  }

  lemma HeardNext(acts: seq<Act>, acts': seq<Act>, acts'': seq<Act>, inbox: seq<Arrival>, n: nat)
    requires n < |inbox| && inbox[n].Heard? && Added(acts, acts', FramesOf(inbox[..n]))
    requires Added(acts', acts'', [inbox[n].frame])
    ensures Added(acts, acts'', FramesOf(inbox[..n + 1]))
  {
    FramesMore(inbox, n);
    AddedOn(acts, acts', acts'', FramesOf(inbox[..n]), [inbox[n].frame]);
    hide FramesOf, Added;
  }

  lemma TookAll(acts: seq<Act>, acts': seq<Act>, inbox: seq<Arrival>, n: nat)
    requires n == |inbox| && Added(acts, acts', FramesOf(inbox[..n]))
    ensures Took(acts, acts', inbox, [])
  {
    hide FramesOf, Added;
  }

  lemma OwingNone(acts: seq<Act>)
    ensures Owing(acts, None) == acts
  {
  }

  /** The packet in hand has been heard. */
  lemma Owed(acts: seq<Act>, acts': seq<Act>, got: Option<Frame>)
    requires Added(acts, acts', if got.Some? then [got.value] else [])
    ensures HeardIn(acts') == HeardIn(Owing(acts, got)) && acts <= acts'
  {
    if got.Some? { AddedOne(acts, Hear(got.value)); }
  }

  lemma TookOwed(acts: seq<Act>, acts': seq<Act>, acts'': seq<Act>, inbox: seq<Arrival>, rest: seq<Arrival>,
                 got: Option<Frame>)
    requires Took(acts, Owing(acts', got), inbox, rest) && acts <= acts' <= acts''
    requires HeardIn(acts'') == HeardIn(Owing(acts', got))
    ensures Took(acts, acts'', inbox, rest)
  {
  }

  // -- what was keyed, by kind ----------------------------------------------------------------------

  /** The keyed frames of some kinds, in order. */
  function Only(air: seq<Frame>, kinds: set<Kind>): seq<Frame> {
    if air == [] then []
    else
      var last := air[|air| - 1];
      Only(air[..|air| - 1], kinds) + if KindOf(last) in kinds then [last] else []
  }

  lemma OnlyMore(air: seq<Frame>, f: Frame, kinds: set<Kind>)
    ensures Only(air + [f], kinds) == Only(air, kinds) + if KindOf(f) in kinds then [f] else []
  {
    assert (air + [f])[..|air|] == air;
  }

  lemma {:induction false} OnlyJoin(air: seq<Frame>, more: seq<Frame>, kinds: set<Kind>)
    ensures Only(air + more, kinds) == Only(air, kinds) + Only(more, kinds)
    decreases |more|
  {
    if more == [] {
      assert air + more == air;
    } else {
      var init := more[..|more| - 1];
      OnlyJoin(air, init, kinds);
      assert (air + more)[..|air + more| - 1] == air + init;
    }
  }

  /** A station re-answering retried CONNECTs keys CONNECT_ACKs and nothing else. */
  lemma {:induction false} OnlyReanswers(s: Station, passed: seq<Arrival>, kinds: set<Kind>)
    requires KConnectAck !in kinds && (s.ackBody.Some? ==> s.ackBody.value.ConnectAck?)
    ensures Only(Reanswers(s, passed), kinds) == []
  {
    if passed != [] {
      var init, last := passed[..|passed| - 1], passed[|passed| - 1];
      OnlyReanswers(s, init, kinds);
      if last.Heard? && IsDuplicateConnect(s, last.frame) {
        OnlyMore(Reanswers(s, init), s.ackBody.value, kinds);
      } else {
        assert Reanswers(s, passed) == Reanswers(s, init);
      }
    }
  }

  /** Of what has been keyed since, nothing but CONNECT_ACKs. */
  ghost predicate OnlyReanswered(air: seq<Frame>, air': seq<Frame>) {
    forall kinds: set<Kind> :: KConnectAck !in kinds ==> Only(air', kinds) == Only(air, kinds)
  }

  lemma Reanswered(air: seq<Frame>, air': seq<Frame>)
    requires OnlyReanswered(air, air')
    ensures DiscKeyed(air') == DiscKeyed(air) && Only(air', ANSWERS) == Only(air, ANSWERS)
    ensures AskKeyed(air') == AskKeyed(air)
  {
  }

  /** How many DISCs were keyed, and how many floor requests. */
  function DiscKeyed(air: seq<Frame>): nat {
    |Only(air, {KDisc})|
  }

  function AskKeyed(air: seq<Frame>): nat {
    |Only(air, {KFloorReq})|
  }

  lemma DiscMore(air: seq<Frame>)
    ensures DiscKeyed(air + [Disc]) == DiscKeyed(air) + 1 && Only(air + [Disc], ANSWERS) == Only(air, ANSWERS)
    ensures AskKeyed(air + [Disc]) == AskKeyed(air)
  {
    OnlyMore(air, Disc, {KFloorReq});
    OnlyMore(air, Disc, {KDisc});
    OnlyMore(air, Disc, ANSWERS);
    hide Only;
  }

  const ANSWERS: set<Kind> := {KDataAck, KFloorGrant}

  // -- waits ----------------------------------------------------------------------------------------

  /** What is left of the script after `n` waits. */
  function AfterWaits(inbox: seq<Arrival>, want: set<Kind>, n: nat): seq<Arrival>
    decreases n
  {
    if n == 0 then inbox else AfterWaits(Rest(inbox, want), want, n - 1)
  }

  /** What the `n`-th wait brings, counting from zero. */
  function Brings(inbox: seq<Arrival>, want: set<Kind>, n: nat): Option<Frame> {
    Found(AfterWaits(inbox, want, n), want)
  }

  lemma NextWait(inbox: seq<Arrival>, want: set<Kind>, n: nat)
    requires n > 0
    ensures AfterWaits(inbox, want, n) == AfterWaits(Rest(inbox, want), want, n - 1)
    ensures Brings(inbox, want, n) == Brings(Rest(inbox, want), want, n - 1)
  {
  }

  lemma FirstWait(inbox: seq<Arrival>, want: set<Kind>)
    ensures Brings(inbox, want, 0) == Found(inbox, want)
  {
  }

  // -- leaving --------------------------------------------------------------------------------------

  datatype Parting = Parting(acknowledged: bool, rest: seq<Arrival>, keyed: nat)

  /** DISC is keyed until a wait brings an answer, `retries` times at most. */
  function PartRun(inbox: seq<Arrival>, retries: nat): Parting
    decreases retries
  {
    if retries == 0 then Parting(false, inbox, 0)
    else if Found(inbox, PARTING).Some? then Parting(true, Rest(inbox, PARTING), 1)
    else var run := PartRun(Rest(inbox, PARTING), retries - 1); run.(keyed := run.keyed + 1)
  }

  /** Midway through leaving: an answer has come, or `left` more tries do the rest. */
  function Parted(done: bool, inbox: seq<Arrival>, left: nat, keyed: nat): Parting {
    if done then Parting(true, inbox, keyed)
    else var run := PartRun(inbox, left); run.(keyed := run.keyed + keyed)
  }

  lemma PartStarts(inbox: seq<Arrival>, retries: nat)
    ensures PartRun(inbox, retries) == Parted(false, inbox, retries, 0)
  {
  }

  lemma PartsOnce(inbox: seq<Arrival>, left: nat, keyed: nat)
    requires left > 0
    ensures Parted(false, inbox, left, keyed)
         == Parted(Found(inbox, PARTING).Some?, Rest(inbox, PARTING), left - 1, keyed + 1)
  {
  }

  lemma PartEnds(inbox: seq<Arrival>, left: nat, keyed: nat)
    ensures Parted(true, inbox, left, keyed) == Parting(true, inbox, keyed)
    ensures left == 0 ==> Parted(false, inbox, left, keyed) == Parting(false, inbox, keyed)
  {
  }

  /** One DISC for every wait, until one brings an answer or the retries are spent. */
  ghost predicate Patient(inbox: seq<Arrival>, retries: nat, run: Parting) {
    && run.keyed <= retries && run.rest == AfterWaits(inbox, PARTING, run.keyed)
    && (forall k: nat :: k + 1 < run.keyed ==> Brings(inbox, PARTING, k).None?)
    && (if run.acknowledged then run.keyed > 0 && Brings(inbox, PARTING, run.keyed - 1).Some?
        else run.keyed == retries && forall k: nat :: k < retries ==> Brings(inbox, PARTING, k).None?)
  }

  lemma {:induction false} PartsPatiently(inbox: seq<Arrival>, retries: nat)
    ensures Patient(inbox, retries, PartRun(inbox, retries))
    decreases retries
  {
    if retries > 0 && Found(inbox, PARTING).None? {
      PartsPatiently(Rest(inbox, PARTING), retries - 1);
      hide Patient;
      StillPatient(inbox, retries, PartRun(Rest(inbox, PARTING), retries - 1));
    } else {
      hide Found, Rest;
    }
  }

  lemma StillPatient(inbox: seq<Arrival>, retries: nat, run: Parting)
    requires retries > 0 && Patient(Rest(inbox, PARTING), retries - 1, run) && Found(inbox, PARTING).None?
    ensures Patient(inbox, retries, run.(keyed := run.keyed + 1))
  {
    hide AfterWaits, Brings, Rest, Found;
    NextWait(inbox, PARTING, run.keyed + 1);
    FirstWait(inbox, PARTING);
    forall k: nat | 0 < k < retries ensures Brings(inbox, PARTING, k) == Brings(Rest(inbox, PARTING), PARTING, k - 1) {
      NextWait(inbox, PARTING, k);
    }
  }

  // -- calling --------------------------------------------------------------------------------------

  datatype Calls = Calls(ack: Option<Frame>, rest: seq<Arrival>, keyed: nat)

  /** The CONNECT_ACK a call from `call` under `sid` is waiting for. */
  predicate AnswersCall(f: Option<Frame>, call: string, sid: nat) {
    f.Some? && f.value.ConnectAck? && f.value.dst == call && f.value.sid == sid
  }

  /** CONNECT is keyed until a wait brings the answer to it; an answer to another call uses its wait up. */
  function CallRun(call: string, sid: nat, inbox: seq<Arrival>, retries: nat): Calls
    decreases retries
  {
    if retries == 0 then Calls(None, inbox, 0)
    else
      var got, rest := Found(inbox, {KConnectAck}), Rest(inbox, {KConnectAck});
      if AnswersCall(got, call, sid) then Calls(got, rest, 1)
      else var run := CallRun(call, sid, rest, retries - 1); run.(keyed := run.keyed + 1)
  }

  /** One CONNECT for every wait; the first answer to this very call is taken, and none is made up. */
  ghost predicate Insistent(call: string, sid: nat, inbox: seq<Arrival>, retries: nat, run: Calls) {
    && run.keyed <= retries && run.rest == AfterWaits(inbox, {KConnectAck}, run.keyed)
    && (forall k: nat :: k + 1 < run.keyed ==> !AnswersCall(Brings(inbox, {KConnectAck}, k), call, sid))
    && (if run.ack.Some? then
          run.keyed > 0 && run.ack == Brings(inbox, {KConnectAck}, run.keyed - 1) && AnswersCall(run.ack, call, sid)
        else
          && run.keyed == retries
          && forall k: nat :: k < retries ==> !AnswersCall(Brings(inbox, {KConnectAck}, k), call, sid))
  }

  lemma {:induction false} CallsPatiently(call: string, sid: nat, inbox: seq<Arrival>, retries: nat)
    ensures Insistent(call, sid, inbox, retries, CallRun(call, sid, inbox, retries))
    decreases retries
  {
    if retries > 0 && !AnswersCall(Found(inbox, {KConnectAck}), call, sid) {
      CallsPatiently(call, sid, Rest(inbox, {KConnectAck}), retries - 1);
      hide Insistent;
      StillInsistent(call, sid, inbox, retries, CallRun(call, sid, Rest(inbox, {KConnectAck}), retries - 1));
    } else {
      hide Found, Rest, Brings, AnswersCall;
      FirstWait(inbox, {KConnectAck});
    }
  }

  lemma StillInsistent(call: string, sid: nat, inbox: seq<Arrival>, retries: nat, run: Calls)
    requires retries > 0 && Insistent(call, sid, Rest(inbox, {KConnectAck}), retries - 1, run)
    requires !AnswersCall(Found(inbox, {KConnectAck}), call, sid)
    ensures Insistent(call, sid, inbox, retries, run.(keyed := run.keyed + 1))
  {
    hide AfterWaits, Brings, Rest, Found, AnswersCall;
    NextWait(inbox, {KConnectAck}, run.keyed + 1);
    FirstWait(inbox, {KConnectAck});
    forall k: nat | 0 < k < retries
      ensures Brings(inbox, {KConnectAck}, k) == Brings(Rest(inbox, {KConnectAck}), {KConnectAck}, k - 1)
    {
      NextWait(inbox, {KConnectAck}, k);
    }
  }

  /** What a call that has keyed `keyed` CONNECTs so far comes to. */
  function CallOn(call: string, sid: nat, inbox: seq<Arrival>, left: nat, keyed: nat): Calls {
    var run := CallRun(call, sid, inbox, left);
    run.(keyed := run.keyed + keyed)
  }

  lemma CallStarts(call: string, sid: nat, inbox: seq<Arrival>, retries: nat)
    ensures CallRun(call, sid, inbox, retries) == CallOn(call, sid, inbox, retries, 0)
  {
    hide CallRun;
  }

  lemma CallsOnce(call: string, sid: nat, inbox: seq<Arrival>, left: nat, keyed: nat)
    requires left > 0
    ensures var got, rest := Found(inbox, {KConnectAck}), Rest(inbox, {KConnectAck});
      CallOn(call, sid, inbox, left, keyed)
        == if AnswersCall(got, call, sid) then Calls(got, rest, keyed + 1)
           else CallOn(call, sid, rest, left - 1, keyed + 1)
  {
    hide Found, Rest;
  }

  lemma CallEnds(call: string, sid: nat, inbox: seq<Arrival>, keyed: nat)
    ensures CallOn(call, sid, inbox, 0, keyed) == Calls(None, inbox, keyed)
  {
  }

  lemma AnswersIs(f: Frame, call: string, sid: nat)
    requires f.ConnectAck?
    ensures AnswersCall(Some(f), call, sid) <==> f.dst == call && f.sid == sid
  {
  }

  lemma NoAnswer(call: string, sid: nat)
    ensures !AnswersCall(None, call, sid)
  {
  }

  // -- the inactivity clock ---------------------------------------------------------------------------

  /** Whether the clock has run out; a script that has run out is a peer that has fallen silent. */
  predicate Expired(inbox: seq<Arrival>, stale: seq<bool>) {
    if stale == [] then inbox == [] else stale[0]
  }

  function Later(stale: seq<bool>): seq<bool> {
    if stale == [] then [] else stale[1..]
  }

  lemma DiscInTime(inbox: seq<Arrival>, stale: seq<bool>)
    ensures DiscWaits(inbox, stale) ==>
      && !Expired(inbox, stale) && Found(inbox, RECEIVES) == Some(Frame.Disc) && Rest(inbox, RECEIVES) == inbox[1..]
  {
  }

  // -- receiving --------------------------------------------------------------------------------------

  datatype Receipt = Receipt(r: Received, st: Station, rest: seq<Arrival>, stale: seq<bool>, answers: seq<Frame>)

  /** A station that has begun to receive. */
  function InRecv(s: Station): Station {
    s.(task := Task.Receiving, partial := if s.partial.None? then Some([]) else s.partial)
  }

  /** The waiting part of recv_message, with the DATA_ACKs and grants it keys. */
  function ReceiveRun(s: Station, inbox: seq<Arrival>, stale: seq<bool>): Receipt
    decreases |inbox|
  {
    var got, rest, later := Found(inbox, RECEIVES), Rest(inbox, RECEIVES), Later(stale);
    if Expired(inbox, stale) then Receipt(Nothing, Gone(s), PartRun(inbox, 1).rest, later, [])
    else if got.None? then Receipt(Nothing, s.(task := Task.Resting), rest, later, [])
    else if got.value.FloorReq? then
      var run := ReceiveRun(s.(role := IRS), rest, later);
      run.(answers := [FloorGrant] + run.answers)
    else if !got.value.Data? then Receipt(Nothing, Gone(s), rest, later, [])
    else
      var d, m := HandleData(s, got.value), Completed(s, got.value);
      if m.Some? then Receipt(Message(m.value), d.st.(task := Task.Resting), rest, later, [d.out.value])
      else
        var run := ReceiveRun(d.st, rest, later);
        run.(answers := [d.out.value] + run.answers)
  }

  /** What a call that has keyed `said` so far comes to, done or not. */
  function ReceiveOn(done: bool, r: Received, s: Station, inbox: seq<Arrival>, stale: seq<bool>, said: seq<Frame>)
      : Receipt
  {
    if done then Receipt(r, s, inbox, stale, said)
    else var run := ReceiveRun(s, inbox, stale); run.(answers := said + run.answers)
  }

  lemma ReceiveStarts(s: Station, inbox: seq<Arrival>, stale: seq<bool>)
    ensures ReceiveRun(s, inbox, stale) == ReceiveOn(false, Nothing, s, inbox, stale, [])
  {
  }

  /** A turn of the wait that keys `more` takes the call on from one point of the script to another. */
  lemma ReceiveGoesOn(s: Station, inbox: seq<Arrival>, stale: seq<bool>, said: seq<Frame>,
                      done: bool, r: Received, t: Station, rest: seq<Arrival>, later: seq<bool>, more: seq<Frame>)
    requires ReceiveRun(s, inbox, stale) == ReceiveOn(done, r, t, rest, later, more)
    ensures ReceiveOn(false, Nothing, s, inbox, stale, said) == ReceiveOn(done, r, t, rest, later, said + more)
  {
    hide ReceiveRun;
    if !done {
      var answers := ReceiveRun(t, rest, later).answers;
      assert said + (more + answers) == (said + more) + answers;
    }
  }

  lemma ReceiveEnds(r: Received, s: Station, inbox: seq<Arrival>, stale: seq<bool>, said: seq<Frame>)
    ensures ReceiveOn(true, r, s, inbox, stale, said) == Receipt(r, s, inbox, stale, said)
  {
  }

  lemma OneOf(f: Frame)
    ensures KindOf(f) in RECEIVES ==> f.Data? || f.FloorReq? || f == Frame.Disc
    ensures KindOf(f) in FLOORS ==> f.Data? || f == FloorGrant || f == Frame.Disc
    ensures KindOf(f) in ACKS ==> f.DataAck? || f == FloorReq || f == Frame.Disc
  {
  }

  lemma AnswersMore(air: seq<Frame>, f: Frame)
    ensures Only(air + [f], ANSWERS) == Only(air, ANSWERS) + if f.DataAck? || f.FloorGrant? then [f] else []
  {
    OnlyMore(air, f, ANSWERS);
    hide Only;
  }

  lemma DataTaken(s: Station, f: Frame, rest: seq<Arrival>, stale: seq<bool>)
    requires f.Data?
    ensures var d, m := HandleData(s, f), Completed(s, f);
      && d.out.Some? && d.out.value.DataAck?
      && WithData(s, f, rest, stale)
         == if m.Some? then ReceiveOn(true, Message(m.value), d.st.(task := Task.Resting), rest, stale, [d.out.value])
            else ReceiveOn(false, Nothing, d.st, rest, stale, [d.out.value])
  {
  }

  /** One turn of the wait: the clock, or what the queue brings. */
  lemma ReceivesOne(s: Station, inbox: seq<Arrival>, stale: seq<bool>)
    ensures var got, rest, later, run := Found(inbox, RECEIVES), Rest(inbox, RECEIVES), Later(stale),
                                        ReceiveRun(s, inbox, stale);
      if Expired(inbox, stale) then run == ReceiveOn(true, Nothing, Gone(s), PartRun(inbox, 1).rest, later, [])
      else if got.None? then run == ReceiveOn(true, Nothing, s.(task := Task.Resting), rest, later, [])
      else
        var f := got.value;
        && (f.FloorReq? ==> run == ReceiveOn(false, Nothing, s.(role := IRS), rest, later, [FloorGrant]))
        && (f.Disc? ==> run == ReceiveOn(true, Nothing, Gone(s), rest, later, []))
        && (f.Data? ==> run == WithData(s, f, rest, later))
  {
    hide Found, Rest, Expired, PartRun, HandleData, Completed;
  }

  /** DATA taken in: the call goes on, or the message it completes is its result. */
  function WithData(s: Station, f: Frame, rest: seq<Arrival>, stale: seq<bool>): Receipt
    requires f.Data?
  {
    var d, m := HandleData(s, f), Completed(s, f);
    if m.Some? then ReceiveOn(true, Message(m.value), d.st.(task := Task.Resting), rest, stale, [d.out.value])
    else ReceiveOn(false, Nothing, d.st, rest, stale, [d.out.value])
  }

  function LaterBy(stale: seq<bool>, n: nat): seq<bool> {
    if n <= |stale| then stale[n..] else []
  }

  /** DATA is answered with its own number and mode, a floor request with a grant. */
  predicate Replies(r: Registry, f: Option<Frame>, reply: Frame) {
    && f.Some? && (f.value.Data? || f.value.FloorReq?)
    && (f.value.FloorReq? ==> reply == FloorGrant)
    && (f.value.Data? ==>
          reply.DataAck? && reply.answered == f.value.seqNo && reply.received == r.Resolve(f.value.mode).id)
  }

  /** The clock has not run out before the `n`-th wait. */
  predicate InTime(inbox: seq<Arrival>, stale: seq<bool>, n: nat) {
    !Expired(AfterWaits(inbox, RECEIVES, n), LaterBy(stale, n))
  }

  /**
   Every packet but a DISC is answered, in order and once; a message ends the call with the packet that completes
   it, and nothing else does but an expired clock, a wait that brings nothing, or a DISC.
   */
  ghost predicate Attends(s: Station, inbox: seq<Arrival>, stale: seq<bool>, run: Receipt) {
    var n := |run.answers|;
    && (forall k :: 0 <= k < n ==>
          InTime(inbox, stale, k) && Replies(s.reg, Brings(inbox, RECEIVES, k), run.answers[k]))
    && (if run.r.Message? then
          && n > 0 && Brings(inbox, RECEIVES, n - 1).value.Data? && run.rest == AfterWaits(inbox, RECEIVES, n)
          && run.st.heard == s.heard + [run.r.bytes] && run.st.state == s.state
        else
          && run.r == Nothing && run.st.heard == s.heard
          && (|| !InTime(inbox, stale, n) || Brings(inbox, RECEIVES, n).None?
              || Brings(inbox, RECEIVES, n) == Some(Frame.Disc)))
  }

  lemma {:induction false} ReceivesAttentively(s: Station, inbox: seq<Arrival>, stale: seq<bool>)
    ensures Attends(s, inbox, stale, ReceiveRun(s, inbox, stale))
    decreases |inbox|
  {
    hide Found, Rest, Brings, InTime, Expired, Replies, PartRun, AfterWaits, HandleData, Completed, Later;
    var got, rest, later := Found(inbox, RECEIVES), Rest(inbox, RECEIVES), Later(stale);
    FirstReceived(inbox, stale);
    if !Expired(inbox, stale) && got.Some? && got.value.FloorReq? {
      var t := s.(role := IRS);
      hide Attends;
      Shrinks(inbox);
      GrantReply(s.reg);
      ReceivesAttentively(t, rest, later);
      AttendsOn(s, t, inbox, stale, FloorGrant, ReceiveRun(t, rest, later));
    } else if !Expired(inbox, stale) && got.Some? && got.value.Data? {
      var d := HandleData(s, got.value);
      DataReply(s, got.value);
      if Completed(s, got.value).None? {
        hide Attends;
        Shrinks(inbox);
        ReceivesAttentively(d.st, rest, later);
        AttendsOn(s, d.st, inbox, stale, d.out.value, ReceiveRun(d.st, rest, later));
      } else {
        NextWait(inbox, RECEIVES, 1);
        NoWait(rest, RECEIVES);
      }
    }
  }

  lemma Shrinks(inbox: seq<Arrival>)
    requires Found(inbox, RECEIVES).Some?
    ensures |Rest(inbox, RECEIVES)| < |inbox|
  {
  }

  lemma GrantReply(r: Registry)
    ensures Replies(r, Some(FloorReq), FloorGrant)
  {
  }

  lemma NoWait(inbox: seq<Arrival>, want: set<Kind>)
    ensures AfterWaits(inbox, want, 0) == inbox
  {
  }

  lemma FirstReceived(inbox: seq<Arrival>, stale: seq<bool>)
    ensures Brings(inbox, RECEIVES, 0) == Found(inbox, RECEIVES)
    ensures InTime(inbox, stale, 0) <==> !Expired(inbox, stale)
    ensures Found(inbox, RECEIVES).Some? ==>
      var f := Found(inbox, RECEIVES).value; f.Data? || f.FloorReq? || f == Frame.Disc
  {
    hide EndsAt;
    Kinds(if Found(inbox, RECEIVES).Some? then Found(inbox, RECEIVES).value else FloorReq);
  }

  lemma DataReply(s: Station, f: Frame)
    requires f.Data?
    ensures var d := HandleData(s, f);
      && d.out.Some? && Replies(s.reg, Some(f), d.out.value) && d.st.reg == s.reg && d.st.state == s.state
      && d.st.heard == s.heard + if Completed(s, f).Some? then [Completed(s, f).value] else []
  {
    hide Registry.Resolve;
  }

  lemma AttendsOn(s: Station, t: Station, inbox: seq<Arrival>, stale: seq<bool>, reply: Frame, run: Receipt)
    requires t.reg == s.reg && t.heard == s.heard && t.state == s.state && InTime(inbox, stale, 0)
    requires Replies(s.reg, Brings(inbox, RECEIVES, 0), reply)
    requires Attends(t, Rest(inbox, RECEIVES), Later(stale), run)
    ensures Attends(s, inbox, stale, run.(answers := [reply] + run.answers))
  {
    hide AfterWaits, Brings, InTime, Replies, Rest, Later;
    var n := |run.answers|;
    forall k: nat | 0 < k <= n + 1
      ensures Brings(inbox, RECEIVES, k) == Brings(Rest(inbox, RECEIVES), RECEIVES, k - 1)
      ensures InTime(inbox, stale, k) == InTime(Rest(inbox, RECEIVES), Later(stale), k - 1)
    {
      NextWait(inbox, RECEIVES, k);
      NextTime(inbox, stale, k);
    }
    NextWait(inbox, RECEIVES, n + 1);
  }

  lemma NextTime(inbox: seq<Arrival>, stale: seq<bool>, k: nat)
    requires k > 0
    ensures InTime(inbox, stale, k) == InTime(Rest(inbox, RECEIVES), Later(stale), k - 1)
  {
    NextWait(inbox, RECEIVES, k);
    assert LaterBy(stale, k) == LaterBy(Later(stale), k - 1);
    hide AfterWaits, Rest;
  }

  /** An inactivity clock that has run out ends the call and the session, whatever is queued. */
  lemma StaleEnds(s: Station, inbox: seq<Arrival>, stale: seq<bool>)
    requires stale != [] && stale[0]
    ensures var run := ReceiveRun(s, inbox, stale); run.r == Nothing && run.st.state == IDLE && run.answers == []
  {
    hide PartRun;
  }

  // -- asking for the floor -------------------------------------------------------------------------------

  datatype Floor = Floor(reply: FloorReply, st: Station, rest: seq<Arrival>, stale: seq<bool>, asked: nat,
                         answers: seq<Frame>)

  /** Part of a message is in: asking now would key over the rest of it. */
  predicate Halfway(s: Station) {
    s.partial.Some? && s.partial.value != []
  }

  /** The floor is asked for until granted, `retries` times in a row at most, and never halfway through a message. */
  function FloorRun(s: Station, inbox: seq<Arrival>, stale: seq<bool>, attempt: nat, retries: nat): Floor
    requires s.task.Asking?
    decreases |inbox| + |stale|, if attempt < retries then retries - attempt else 0
  {
    var half := Halfway(s);
    if attempt >= retries then Floor(Quiet, s.(task := Task.Failed), inbox, stale, 0, [])
    else if half && Expired(inbox, stale) then
      Floor(PeerLeft, Gone(s), PartRun(inbox, 1).rest, Later(stale), 0, [])
    else
      var asked := if half then 0 else 1;
      var later := if half then Later(stale) else stale;
      var got, rest := Found(inbox, FLOORS), Rest(inbox, FLOORS);
      if got.None? then
        var run := FloorRun(s, rest, later, attempt + asked, retries);
        run.(asked := run.asked + asked)
      else if got.value.Disc? then Floor(PeerLeft, Gone(s), rest, later, asked, [])
      else if got.value.Data? then
        var run := FloorRun(TookForFloor(s, got.value), rest, later, if half then attempt else 0, retries);
        run.(asked := run.asked + asked, answers := [HandleData(s, got.value).out.value] + run.answers)
      else Floor(Granted, BeginSending(s, s.task.message), rest, later, asked, [])
  }

  /** What a call that has asked `asked` times and answered `said` so far comes to, done or not. */
  function FloorOn(done: bool, reply: FloorReply, s: Station, inbox: seq<Arrival>, stale: seq<bool>, attempt: nat,
                   retries: nat, asked: nat, said: seq<Frame>): Floor
    requires !done ==> s.task.Asking?
  {
    if done then Floor(reply, s, inbox, stale, asked, said)
    else
      var run := FloorRun(s, inbox, stale, attempt, retries);
      run.(asked := run.asked + asked, answers := said + run.answers)
  }

  lemma FloorStarts(s: Station, inbox: seq<Arrival>, stale: seq<bool>, retries: nat)
    requires s.task.Asking?
    ensures FloorRun(s, inbox, stale, 0, retries) == FloorOn(false, Quiet, s, inbox, stale, 0, retries, 0, [])
  {
    hide FloorRun;
  }

  lemma FloorEnds(reply: FloorReply, s: Station, inbox: seq<Arrival>, stale: seq<bool>, attempt: nat, retries: nat,
                  asked: nat, said: seq<Frame>)
    ensures FloorOn(true, reply, s, inbox, stale, attempt, retries, asked, said)
         == Floor(reply, s, inbox, stale, asked, said)
    ensures s.task.Asking? && attempt >= retries ==>
      FloorOn(false, reply, s, inbox, stale, attempt, retries, asked, said)
         == Floor(Quiet, s.(task := Task.Failed), inbox, stale, asked, said)
  {
  }

  predicate Final(reply: FloorReply) {
    reply.Granted? || reply.PeerLeft?
  }

  lemma FinalIs()
    ensures forall reply :: Final(reply) <==> reply.Granted? || reply.PeerLeft?
  {
  }

  lemma GoneShrinks(inbox: seq<Arrival>, stale: seq<bool>)
    ensures |PartRun(inbox, 1).rest| + |Later(stale)| < |inbox| + |stale| || (inbox == [] && stale == [])
    ensures |PartRun(inbox, 1).rest| + |Later(stale)| <= |inbox| + |stale|
  {
  }

  /** One turn halfway through a message, the clock not having run out: nothing is asked. */
  lemma FloorWaits(s: Station, inbox: seq<Arrival>, stale: seq<bool>, attempt: nat, retries: nat,
                   reply: FloorReply, t: Station, said: seq<Frame>)
    requires s.task.Asking? && attempt < retries && Halfway(s) && !Expired(inbox, stale)
    requires Turned(s, Found(inbox, FLOORS), reply, t, said)
    ensures !Final(reply) ==> t.task.Asking?
    ensures FloorRun(s, inbox, stale, attempt, retries)
         == FloorOn(Final(reply), reply, t, Rest(inbox, FLOORS), Later(stale), attempt, retries, 0, said)
  {
    hide Found, Rest, Expired, PartRun, HandleData, Later;
  }

  /** One turn with a request. */
  lemma FloorAsks(s: Station, inbox: seq<Arrival>, stale: seq<bool>, attempt: nat, retries: nat,
                  reply: FloorReply, t: Station, said: seq<Frame>)
    requires s.task.Asking? && attempt < retries && !Halfway(s)
    requires Turned(s, Found(inbox, FLOORS), reply, t, said)
    ensures !Final(reply) ==> t.task.Asking?
    ensures FloorRun(s, inbox, stale, attempt, retries)
         == FloorOn(Final(reply), reply, t, Rest(inbox, FLOORS), stale, if reply.TookData? then 0 else attempt + 1,
                    retries, 1, said)
  {
    hide Found, Rest, Expired, PartRun, HandleData, Later;
  }

  lemma FloorGone(s: Station, inbox: seq<Arrival>, stale: seq<bool>, attempt: nat, retries: nat)
    requires s.task.Asking? && attempt < retries && Halfway(s) && Expired(inbox, stale)
    ensures FloorRun(s, inbox, stale, attempt, retries)
         == FloorOn(true, PeerLeft, Gone(s), PartRun(inbox, 1).rest, Later(stale), attempt, retries, 0, [])
  {
  }

  /** A turn takes the call on from one point of the script to another. */
  lemma FloorGoesOn(s: Station, inbox: seq<Arrival>, stale: seq<bool>, attempt: nat, retries: nat, asked: nat,
                    said: seq<Frame>, reply: FloorReply, t: Station, rest: seq<Arrival>, later: seq<bool>,
                    next: nat, more: nat, words: seq<Frame>)
    requires s.task.Asking? && (!Final(reply) ==> t.task.Asking?)
    requires FloorRun(s, inbox, stale, attempt, retries)
          == FloorOn(Final(reply), reply, t, rest, later, next, retries, more, words)
    ensures FloorOn(false, Quiet, s, inbox, stale, attempt, retries, asked, said)
         == FloorOn(Final(reply), if Final(reply) then reply else Quiet, t, rest, later, next, retries, asked + more,
                    said + words)
  {
    hide FloorRun;
    if !Final(reply) {
      var answers := FloorRun(t, rest, later, next, retries).answers;
      assert said + (words + answers) == (said + words) + answers;
    }
  }

  /** What a wait for the floor makes of what it brings. */
  predicate Turned(s: Station, got: Option<Frame>, reply: FloorReply, t: Station, said: seq<Frame>)
    requires s.task.Asking?
  {
    if got.None? then reply.Quiet? && t == s && said == []
    else if got.value.Disc? then reply.PeerLeft? && t == Gone(s) && said == []
    else if got.value.Data? then
      reply.TookData? && t == TookForFloor(s, got.value) && said == [HandleData(s, got.value).out.value]
    else reply.Granted? && t == BeginSending(s, s.task.message) && said == []
  }

  lemma TurnedIs(s: Station, got: Option<Frame>)
    requires s.task.Asking?
    ensures got.None? ==> Turned(s, got, Quiet, s, [])
    ensures got == Some(Frame.Disc) ==> Turned(s, got, PeerLeft, Gone(s), [])
    ensures got.Some? && got.value.Data? ==>
      Turned(s, got, TookData, TookForFloor(s, got.value), [HandleData(s, got.value).out.value])
    ensures got == Some(FloorGrant) ==> Turned(s, got, Granted, BeginSending(s, s.task.message), [])
  {
  }

  lemma TurnedSome(s: Station, got: Option<Frame>, reply: FloorReply, t: Station, said: seq<Frame>)
    requires s.task.Asking? && Turned(s, got, reply, t, said)
    ensures reply.Quiet? <==> got.None?
  {
  }

  lemma HalfwayIs(s: Station)
    ensures Halfway(s) <==> s.partial.Some? && s.partial.value != []
  {
  }

  lemma AskMore(air: seq<Frame>)
    ensures AskKeyed(air + [FloorReq]) == AskKeyed(air) + 1 && Only(air + [FloorReq], ANSWERS) == Only(air, ANSWERS)
  {
    OnlyMore(air, FloorReq, {KFloorReq});
    OnlyMore(air, FloorReq, ANSWERS);
    hide Only;
  }

  lemma NoAsk(air: seq<Frame>, f: Frame)
    requires !f.FloorReq?
    ensures AskKeyed(air + [f]) == AskKeyed(air)
  {
    OnlyMore(air, f, {KFloorReq});
    hide Only;
  }

  /** Giving up takes `n` requests in a row that nothing came of, or `retries` since the last DATA. */
  ghost predicate Unheeded(inbox: seq<Arrival>, n: nat, retries: nat, run: Floor) {
    run.reply.Quiet? ==>
      exists w: nat :: AfterWaits(inbox, FLOORS, w) == run.rest && LastNone(inbox, n, retries, w, run.asked)
  }

  /** The last waits of `w` brought nothing: all `n`, or at least `retries`. */
  ghost predicate LastNone(inbox: seq<Arrival>, n: nat, retries: nat, w: nat, asked: nat) {
    || (w == n && asked >= n && forall k: nat :: k < w ==> Brings(inbox, FLOORS, k).None?)
    || (w >= retries && asked >= retries && forall k: nat :: w - retries <= k < w ==> Brings(inbox, FLOORS, k).None?)
  }

  lemma {:induction false} AsksPatiently(s: Station, inbox: seq<Arrival>, stale: seq<bool>, attempt: nat, retries: nat)
    requires s.task.Asking? && attempt <= retries && (Halfway(s) ==> attempt == 0)
    ensures Unheeded(inbox, retries - attempt, retries, FloorRun(s, inbox, stale, attempt, retries))
    decreases |inbox| + |stale|, retries - attempt
  {
    hide Found, Rest, Brings, Expired, PartRun, AfterWaits, HandleData, Later, TookForFloor, LastNone;
    var half, got, rest := Halfway(s), Found(inbox, FLOORS), Rest(inbox, FLOORS);
    var later := if half then Later(stale) else stale;
    FirstWait(inbox, FLOORS);
    WaitShrinks(inbox, FLOORS);
    ClockShrinks(inbox, stale);
    if attempt == retries {
      NoWait(inbox, FLOORS);
      NoneLast(inbox, retries);
    } else if half && Expired(inbox, stale) {
    } else if got.None? {
      var asked := if half then 0 else 1;
      hide Unheeded;
      AsksPatiently(s, rest, later, attempt + asked, retries);
      UnheededOn(inbox, retries - attempt, retries - attempt - asked, retries, asked,
                 FloorRun(s, rest, later, attempt + asked, retries), []);
    } else if got.value.Data? {
      hide Unheeded;
      var t, reply := TookForFloor(s, got.value), HandleData(s, got.value).out.value;
      AsksPatiently(t, rest, later, 0, retries);
      UnheededOn(inbox, retries - attempt, retries, retries, if half then 0 else 1,
                 FloorRun(t, rest, later, 0, retries), [reply]);
    }
  }

  lemma WaitShrinks(inbox: seq<Arrival>, want: set<Kind>)
    ensures |Rest(inbox, want)| < |inbox| || (inbox == [] && Rest(inbox, want) == [])
    ensures Found(inbox, want).Some? ==> inbox != []
  {
  }

  lemma ClockShrinks(inbox: seq<Arrival>, stale: seq<bool>)
    ensures |Later(stale)| <= |stale| && (!Expired(inbox, stale) ==> |Later(stale)| < |stale| || inbox != [])
  {
  }

  lemma NoneLast(inbox: seq<Arrival>, retries: nat)
    ensures LastNone(inbox, 0, retries, 0, 0)
  {
  }

  lemma UnheededOn(inbox: seq<Arrival>, n: nat, n': nat, retries: nat, asked: nat, run: Floor, answers: seq<Frame>)
    requires Unheeded(Rest(inbox, FLOORS), n', retries, run)
    requires n' == retries || (n' + 1 == n && asked == 1 && Brings(inbox, FLOORS, 0).None?)
    ensures Unheeded(inbox, n, retries, run.(asked := run.asked + asked, answers := answers + run.answers))
  {
    hide AfterWaits, Rest, LastNone, Brings;
    if run.reply.Quiet? {
      var w: nat :| AfterWaits(Rest(inbox, FLOORS), FLOORS, w) == run.rest
                    && LastNone(Rest(inbox, FLOORS), n', retries, w, run.asked);
      NextWait(inbox, FLOORS, w + 1);
      LastNoneOn(inbox, n, n', retries, w, run.asked, asked);
    }
  }

  lemma LastNoneOn(inbox: seq<Arrival>, n: nat, n': nat, retries: nat, w: nat, asked: nat, more: nat)
    requires LastNone(Rest(inbox, FLOORS), n', retries, w, asked)
    requires n' == retries || (n' + 1 == n && more == 1 && Brings(inbox, FLOORS, 0).None?)
    ensures LastNone(inbox, n, retries, w + 1, asked + more)
  {
    hide Rest, Brings;
    forall k: nat | 0 < k <= w ensures Brings(inbox, FLOORS, k) == Brings(Rest(inbox, FLOORS), FLOORS, k - 1) {
      NextWait(inbox, FLOORS, k);
    }
  }

  /** Halfway through a message an inactivity clock that has run out gives the peer up, and nothing is asked. */
  lemma StaleFloor(s: Station, inbox: seq<Arrival>, stale: seq<bool>, attempt: nat, retries: nat)
    requires s.task.Asking? && attempt < retries && stale != [] && stale[0]
    requires s.partial.Some? && s.partial.value != []
    ensures var run := FloorRun(s, inbox, stale, attempt, retries);
      run.reply == PeerLeft && run.st.state == IDLE && run.asked == 0
  {
    hide PartRun;
  }

  /** A grant that is the first thing to come of a request ends it. */
  lemma GrantTaken(s: Station, inbox: seq<Arrival>, stale: seq<bool>, retries: nat)
    requires s.task.Asking? && !Halfway(s) && retries > 0 && Found(inbox, FLOORS) == Some(Frame.FloorGrant)
    ensures FloorRun(s, inbox, stale, 0, retries)
         == Floor(Granted, BeginSending(s, s.task.message), Rest(inbox, FLOORS), stale, 1, [])
  {
  }

  // -- one chunk --------------------------------------------------------------------------------------------

  /** What ends the wait for the ACK of the chunk in hand. */
  predicate Matters(s: Station, a: Arrival) {
    a.Silence? || a.frame.Disc? || a.frame.FloorReq? || Confirms(s, a.frame)
  }

  function FirstMatter(s: Station, inbox: seq<Arrival>): (n: nat)
    ensures n <= |inbox| && (n < |inbox| ==> Matters(s, inbox[n]))
    ensures forall k :: 0 <= k < n ==> !Matters(s, inbox[k])
  {
    if inbox == [] || Matters(s, inbox[0]) then 0 else 1 + FirstMatter(s, inbox[1..])
  }

  datatype AckWait = AckWait(result: ArqResult, rest: seq<Arrival>)

  /** The wait for the ACK: nothing but a confirming one, a DISC, a floor request or silence ends it. */
  function AwaitRun(s: Station, inbox: seq<Arrival>): (w: AckWait)
    ensures !w.result.Resize?
  {
    var n := FirstMatter(s, inbox);
    if n == |inbox| then AckWait(NoAck, [])
    else
      var a := inbox[n];
      var result := if a.Silence? || a.frame.FloorReq? then NoAck else if a.frame.Disc? then PeerGone else Acked;
      AckWait(result, inbox[n + 1..])
  }

  lemma {:induction false} MattersFirst(s: Station, inbox: seq<Arrival>, n: nat)
    requires n <= |inbox| && (n < |inbox| ==> Matters(s, inbox[n])) && forall k :: 0 <= k < n ==> !Matters(s, inbox[k])
    ensures FirstMatter(s, inbox) == n
  {
  }

  lemma ConfirmsMeans(s: Station, f: Frame)
    ensures Confirms(s, f) <==>
      f.DataAck? && f.answered == s.txSeq && SeqAhead(f.expects, s.txSeq) == 1 && f.received == s.tx.id
  {
  }

  lemma SameStation(s: Station)
    ensures s == s.(tx := s.tx)
  {
  }

  /** Packets nobody waits for do not matter. */
  lemma PassesOver(s: Station, inbox: seq<Arrival>)
    ensures forall k :: 0 <= k < EndsAt(inbox, ACKS) ==> !Matters(s, inbox[k])
  {
    forall k | 0 <= k < EndsAt(inbox, ACKS) ensures !Matters(s, inbox[k]) { Kinds(inbox[k].frame); }
    hide EndsAt;
  }

  lemma MattersNow(s: Station, inbox: seq<Arrival>)
    requires var n := EndsAt(inbox, ACKS); n == |inbox| || Matters(s, inbox[n])
    ensures FirstMatter(s, inbox) == EndsAt(inbox, ACKS)
  {
    PassesOver(s, inbox);
    MattersFirst(s, inbox, EndsAt(inbox, ACKS));
    hide EndsAt, FirstMatter, Matters;
  }

  lemma {:induction false} MattersAfter(s: Station, inbox: seq<Arrival>, n: nat)
    requires n <= |inbox| && forall k :: 0 <= k < n ==> !Matters(s, inbox[k])
    ensures FirstMatter(s, inbox) == n + FirstMatter(s, inbox[n..])
  {
    hide Matters;
    if n == 0 {
      assert inbox[0..] == inbox;
    } else {
      assert inbox[1..][n - 1..] == inbox[n..];
      MattersAfter(s, inbox[1..], n - 1);
    }
  }

  lemma AwaitsAfter(s: Station, inbox: seq<Arrival>, n: nat)
    requires n <= |inbox| && FirstMatter(s, inbox) == n + FirstMatter(s, inbox[n..])
    ensures AwaitRun(s, inbox) == AwaitRun(s, inbox[n..])
  {
    var rest, m := inbox[n..], FirstMatter(s, inbox[n..]);
    hide FirstMatter, Matters;
    if m < |rest| { assert rest[m + 1..] == inbox[n + m + 1..] && rest[m] == inbox[n + m]; }
  }

  lemma MattersLater(s: Station, inbox: seq<Arrival>)
    requires var n := EndsAt(inbox, ACKS); n < |inbox| && !Matters(s, inbox[n])
    ensures AwaitRun(s, inbox) == AwaitRun(s, inbox[EndsAt(inbox, ACKS) + 1..])
  {
    PassesOver(s, inbox);
    hide *;
    MattersAfter(s, inbox, EndsAt(inbox, ACKS) + 1);
    AwaitsAfter(s, inbox, EndsAt(inbox, ACKS) + 1);
  }

  /** What the queue brings settles the wait, or is passed over. */
  lemma AwaitsNext(s: Station, inbox: seq<Arrival>)
    ensures var got, rest := Found(inbox, ACKS), Rest(inbox, ACKS);
      if got.None? then AwaitRun(s, inbox) == AckWait(NoAck, rest)
      else
        var f := got.value;
        && (f.Disc? ==> AwaitRun(s, inbox) == AckWait(PeerGone, rest))
        && (f.FloorReq? ==> AwaitRun(s, inbox) == AckWait(NoAck, rest))
        && (Confirms(s, f) ==> AwaitRun(s, inbox) == AckWait(Acked, rest))
        && (f.DataAck? && !Confirms(s, f) ==> AwaitRun(s, inbox) == AwaitRun(s, rest))
  {
    var n := EndsAt(inbox, ACKS);
    if n == |inbox| || Matters(s, inbox[n]) {
      MattersNow(s, inbox);
      ConfirmsData(s);
    } else {
      MattersLater(s, inbox);
      hide AwaitRun;
    }
    hide Confirms, EndsAt, FirstMatter;
  }

  lemma ConfirmsData(s: Station)
    ensures forall f :: Confirms(s, f) ==> f.DataAck?
  {
  }

  datatype Arq = Arq(result: ArqResult, tx: Mode, rest: seq<Arrival>, failures: nat, keyed: nat)

  /**
   The chunk in hand is keyed until something comes of it, `left` times at most; after `after` waits in a row
   that brought no ACK the mode steps down, and the chunk is given back if it no longer fits.
   */
  function ArqRun(s: Station, inbox: seq<Arrival>, failures: nat, left: nat, after: nat): Arq
    requires s.hand.Some?
    decreases left
  {
    if left == 0 then Arq(NoAck, s.tx, inbox, failures, 0)
    else
      var w := AwaitRun(s, inbox);
      if !w.result.NoAck? then Arq(w.result, s.tx, w.rest, failures, 1)
      else
        var t := if failures + 1 >= after then StepMode(s, false) else s;
        var count := if t.tx != s.tx then 0 else failures + 1;
        if |s.hand.value.bytes| > t.tx.chunkSize then Arq(Resize, t.tx, w.rest, count, 1)
        else var run := ArqRun(t, w.rest, count, left - 1, after); run.(keyed := run.keyed + 1)
  }

  /** What a chunk keyed `keyed` times so far comes to, done or not. */
  function ArqOn(done: bool, result: ArqResult, s: Station, inbox: seq<Arrival>, failures: nat, left: nat, after: nat,
                 keyed: nat): Arq
    requires s.hand.Some?
  {
    if done then Arq(result, s.tx, inbox, failures, keyed)
    else var run := ArqRun(s, inbox, failures, left, after); run.(keyed := run.keyed + keyed)
  }

  lemma ArqStarts(s: Station, inbox: seq<Arrival>, failures: nat, left: nat, after: nat)
    requires s.hand.Some?
    ensures ArqRun(s, inbox, failures, left, after) == ArqOn(false, NoAck, s, inbox, failures, left, after, 0)
  {
    hide ArqRun;
  }

  lemma ArqEnds(result: ArqResult, s: Station, inbox: seq<Arrival>, failures: nat, left: nat, after: nat, keyed: nat)
    requires s.hand.Some?
    ensures ArqOn(true, result, s, inbox, failures, left, after, keyed) == Arq(result, s.tx, inbox, failures, keyed)
    ensures left == 0 ==>
      ArqOn(false, result, s, inbox, failures, left, after, keyed) == Arq(NoAck, s.tx, inbox, failures, keyed)
  {
  }

  /** One keying and its wait that settled the matter. */
  lemma ArqSettles(s: Station, inbox: seq<Arrival>, failures: nat, left: nat, after: nat, keyed: nat)
    requires s.hand.Some? && left > 0 && !AwaitRun(s, inbox).result.NoAck?
    ensures var w := AwaitRun(s, inbox);
      ArqOn(false, NoAck, s, inbox, failures, left, after, keyed)
         == ArqOn(true, w.result, s, w.rest, failures, left, after, keyed + 1)
  {
    hide AwaitRun;
  }

  /** One that did not: the failure is counted, and from the `after`-th on a step down tried. */
  lemma ArqFails(s: Station, inbox: seq<Arrival>, failures: nat, left: nat, after: nat, keyed: nat, t: Station,
                 count: nat)
    requires s.hand.Some? && left > 0 && AwaitRun(s, inbox).result.NoAck? && t == s.(tx := t.tx)
    requires t == (if failures + 1 >= after then StepMode(s, false) else s)
    requires count == (if t.tx != s.tx then 0 else failures + 1)
    ensures var big, rest := |s.hand.value.bytes| > t.tx.chunkSize, AwaitRun(s, inbox).rest;
      ArqOn(false, NoAck, s, inbox, failures, left, after, keyed)
         == ArqOn(big, if big then Resize else NoAck, t, rest, count, left - 1, after, keyed + 1)
  {
    hide AwaitRun, StepMode;
  }

  lemma {:induction false} ArqBound(s: Station, inbox: seq<Arrival>, failures: nat, left: nat, after: nat)
    requires s.hand.Some?
    ensures ArqRun(s, inbox, failures, left, after).keyed <= left
  {
    ArqPersists(s, inbox, failures, left, after);
  }

  /** What a call has taken of the script. */
  function Used(inbox: seq<Arrival>, rest: seq<Arrival>): seq<Arrival> {
    if |rest| <= |inbox| then inbox[..|inbox| - |rest|] else []
  }

  /** How many waits for an ACK a piece of the script ends without one. */
  function Lapses(arrivals: seq<Arrival>): nat {
    if arrivals == [] then 0
    else
      var last := arrivals[|arrivals| - 1];
      Lapses(arrivals[..|arrivals| - 1]) + if last.Silence? || last.frame.FloorReq? then 1 else 0
  }

  lemma {:induction false} LapsesJoin(p: seq<Arrival>, q: seq<Arrival>)
    ensures Lapses(p + q) == Lapses(p) + Lapses(q)
    decreases |q|
  {
    if q == [] {
      assert p + q == p;
    } else {
      var init := q[..|q| - 1];
      LapsesJoin(p, init);
      assert (p + q)[..|p + q| - 1] == p + init;
    }
  }

  lemma {:induction false} NoLapse(arrivals: seq<Arrival>)
    requires forall k :: 0 <= k < |arrivals| ==> arrivals[k].Heard? && !arrivals[k].frame.FloorReq?
    ensures Lapses(arrivals) == 0
  {
    if arrivals != [] { NoLapse(arrivals[..|arrivals| - 1]); }
  }

  predicate EndsIn(inbox: seq<Arrival>, rest: seq<Arrival>, a: Arrival) {
    var used := Used(inbox, rest);
    used != [] && used[|used| - 1] == a
  }

  /** A piece of the script, and how many waits it ends without an ACK, unless the script runs out first. */
  predicate Lapsed(inbox: seq<Arrival>, rest: seq<Arrival>, n: nat) {
    && Leaves(inbox, rest)
    && (Lapses(Used(inbox, rest)) == n || (Lapses(Used(inbox, rest)) < n && rest == []))
  }

  lemma UsedOn(inbox: seq<Arrival>, mid: seq<Arrival>, rest: seq<Arrival>)
    requires Leaves(inbox, mid) && Leaves(mid, rest)
    ensures Used(inbox, rest) == Used(inbox, mid) + Used(mid, rest) && Leaves(inbox, rest)
    ensures forall a :: EndsIn(mid, rest, a) ==> EndsIn(inbox, rest, a)
    ensures Lapses(Used(inbox, rest)) == Lapses(Used(inbox, mid)) + Lapses(Used(mid, rest))
  {
    LapsesJoin(Used(inbox, mid), Used(mid, rest));
    hide Lapses;
  }

  lemma LapsedOn(inbox: seq<Arrival>, mid: seq<Arrival>, rest: seq<Arrival>, m: nat, n: nat)
    requires Lapsed(inbox, mid, m) && Lapsed(mid, rest, n)
    ensures Lapsed(inbox, rest, m + n) && forall a :: EndsIn(mid, rest, a) ==> EndsIn(inbox, rest, a)
  {
    UsedOn(inbox, mid, rest);
    hide Lapses, EndsIn, Used;
  }

  /** A wait ends with the first arrival that matters, and says which it was. */
  lemma AwaitsOne(s: Station, inbox: seq<Arrival>)
    ensures var w := AwaitRun(s, inbox);
      && Lapsed(inbox, w.rest, if w.result.NoAck? then 1 else 0)
      && (w.result.PeerGone? ==> EndsIn(inbox, w.rest, Heard(Frame.Disc)))
      && (w.result.Acked? ==> exists f :: EndsIn(inbox, w.rest, Heard(f)) && Confirms(s, f))
  {
    var n := FirstMatter(s, inbox);
    NoLapse(inbox[..n]);
    if n < |inbox| {
      assert inbox[..n + 1][..n] == inbox[..n];
      assert Used(inbox, inbox[n + 1..]) == inbox[..n + 1];
      if inbox[n].Heard? { assert EndsIn(inbox, inbox[n + 1..], Heard(inbox[n].frame)); }
    }
    hide Confirms, FirstMatter;
  }

  /** How ARQ on one chunk ends, and what it took: one keying a wait, `left` of them before it gives up. */
  ghost predicate Persists(s: Station, inbox: seq<Arrival>, left: nat, run: Arq)
    requires s.hand.Some?
  {
    && run.keyed <= left
    && (run.result.NoAck? ==> run.keyed == left && Lapsed(inbox, run.rest, left))
    && (run.result.Resize? ==>
          run.keyed > 0 && Lapsed(inbox, run.rest, run.keyed) && |s.hand.value.bytes| > run.tx.chunkSize)
    && (run.result.PeerGone? ==>
          run.keyed > 0 && Lapsed(inbox, run.rest, run.keyed - 1) && EndsIn(inbox, run.rest, Heard(Frame.Disc)))
    && (run.result.Acked? ==>
          && run.keyed > 0 && Lapsed(inbox, run.rest, run.keyed - 1)
          && exists f :: EndsIn(inbox, run.rest, Heard(f)) && Confirms(s.(tx := run.tx), f))
  }

  lemma {:induction false} ArqPersists(s: Station, inbox: seq<Arrival>, failures: nat, left: nat, after: nat)
    requires s.hand.Some?
    ensures Persists(s, inbox, left, ArqRun(s, inbox, failures, left, after))
    decreases left
  {
    hide AwaitRun, StepMode, Confirms, EndsIn, Lapsed;
    if left == 0 {
      NothingUsed(inbox);
    } else {
      var w := AwaitRun(s, inbox);
      AwaitsOne(s, inbox);
      StepTask(s, false);
      if w.result.NoAck? {
        var t := if failures + 1 >= after then StepMode(s, false) else s;
        var count := if t.tx != s.tx then 0 else failures + 1;
        if |s.hand.value.bytes| <= t.tx.chunkSize {
          hide Persists;
          ArqPersists(t, w.rest, count, left - 1, after);
          PersistsOn(s, t, inbox, w.rest, left, ArqRun(t, w.rest, count, left - 1, after));
        }
      }
    }
  }

  lemma NothingUsed(inbox: seq<Arrival>)
    ensures Lapsed(inbox, inbox, 0)
  {
    assert inbox[..0] == [];
  }

  lemma PersistsOn(s: Station, t: Station, inbox: seq<Arrival>, mid: seq<Arrival>, left: nat, run: Arq)
    requires s.hand.Some? && t == s.(tx := t.tx) && left > 0 && Lapsed(inbox, mid, 1)
    requires Persists(t, mid, left - 1, run)
    ensures Persists(s, inbox, left, run.(keyed := run.keyed + 1))
  {
    hide Lapsed, EndsIn, Confirms;
    if run.result.NoAck? { LapsedOn(inbox, mid, run.rest, 1, left - 1); }
    if run.result.Resize? { LapsedOn(inbox, mid, run.rest, 1, run.keyed); }
    if run.result.PeerGone? || run.result.Acked? { LapsedOn(inbox, mid, run.rest, 1, run.keyed - 1); }
    assert s.(tx := run.tx) == t.(tx := run.tx);
  }

  /** A chunk whose first answer confirms it is keyed once. */
  lemma AckedAtOnce(s: Station, inbox: seq<Arrival>, failures: nat, left: nat, after: nat)
    requires s.hand.Some? && left > 0 && AwaitRun(s, inbox).result.Acked?
    ensures ArqRun(s, inbox, failures, left, after) == Arq(Acked, s.tx, AwaitRun(s, inbox).rest, failures, 1)
  {
  }

  /** The mode only ever steps down, and not before `after` failures in a row. */
  lemma {:induction false} ArqLadder(s: Station, inbox: seq<Arrival>, failures: nat, left: nat, after: nat)
    requires s.hand.Some? && s.reg.Valid() && s.tx in s.reg.modes && |s.hand.value.bytes| <= s.tx.chunkSize
    ensures var run := ArqRun(s, inbox, failures, left, after);
      && run.tx in s.reg.modes && s.reg.Index(run.tx.id) <= s.reg.Index(s.tx.id)
      && (run.result.Resize? ==> s.reg.Index(run.tx.id) < s.reg.Index(s.tx.id))
      && (failures + run.keyed < after ==> run.tx == s.tx)
    ensures left > 0 && AwaitRun(s, inbox).result.NoAck? && failures + 1 >= after && CanStep(s, false) ==>
      s.reg.Index(ArqRun(s, inbox, failures, left, after).tx.id) < s.reg.Index(s.tx.id)
    decreases left
  {
    hide AwaitRun, StepMode, CanStep, Registry.Valid, Registry.Index;
    if left > 0 && AwaitRun(s, inbox).result.NoAck? {
      StepMoves(s, false);
      var t := if failures + 1 >= after then StepMode(s, false) else s;
      var count := if t.tx != s.tx then 0 else failures + 1;
      if |s.hand.value.bytes| <= t.tx.chunkSize { ArqLadder(t, AwaitRun(s, inbox).rest, count, left - 1, after); }
    }
  }

  // -- a whole message ------------------------------------------------------------------------------------------

  /** What sending works against: the script, the failures counted, which way the statistics will lean. */
  datatype Load = Load(inbox: seq<Arrival>, failures: nat, hunches: seq<int>)

  datatype Send = Send(outcome: Outcome, st: Station, load: Load, keyed: nat)

  /** Between chunks one step the way the statistics lean, unless the mode has just been changed. */
  function Lean(w: Load, allow: bool): int {
    if allow && w.hunches != [] then w.hunches[0] else 0
  }

  function Leant(w: Load, allow: bool): Load {
    w.(failures := 0, hunches := if allow && w.hunches != [] then w.hunches[1..] else w.hunches)
  }

  function Adapted(s: Station, lean: int): Station {
    if lean == 0 then s else StepMode(s, lean > 0)
  }

  /** A station at the beginning of a chunk, its mode on its ladder. */
  ghost predicate AtChunk(s: Station) {
    && s.task.Sending? && !s.task.finished && s.task.offset <= |s.task.data|
    && s.reg.Valid() && s.tx in s.reg.modes
  }

  /** A chunk cut by `s` has been acknowledged in mode `tx`. */
  function Onward(s: Station, tx: Mode, w: Load): Station
    requires s.task.Sending? && s.hand.Some?
  {
    Adapted(TakeAck(s.(tx := tx)), Lean(w, tx == s.tx))
  }

  /** Chunk by chunk, cut for the mode in use, until the last is acknowledged or one is given up. */
  ghost function SendRun(s: Station, w: Load, retries: nat, after: nat): Send
    requires AtChunk(s)
    decreases |s.task.data| - s.task.offset, s.reg.Index(s.tx.id)
  {
    ChunkFacts(s);
    var cut := CutNow(s);
    var run := ArqRun(cut, w.inbox, w.failures, retries, after);
    var left := w.(inbox := run.rest, failures := run.failures);
    ArqLadder(cut, w.inbox, w.failures, retries, after);
    match run.result
    case NoAck => Send(Unacknowledged, cut.(tx := run.tx, task := Task.Failed), left, run.keyed)
    case PeerGone => Send(Disconnected, Gone(cut.(tx := run.tx)), left, run.keyed)
    case Resize =>
      var more := SendRun(cut.(tx := run.tx), left, retries, after);
      more.(keyed := more.keyed + run.keyed)
    case Acked =>
      var t := Onward(cut, run.tx, left);
      OnwardFacts(cut, run.tx, left);
      var rest := Leant(left, run.tx == s.tx);
      if cut.hand.value.eof then Send(Sent, t.(sent := t.sent + [s.task.data], task := Task.Resting), rest, run.keyed)
      else
        var more := SendRun(t, rest, retries, after);
        more.(keyed := more.keyed + run.keyed)
  }

  /** A chunk fits its mode, and only the last can be empty. */
  lemma ChunkFacts(s: Station)
    requires AtChunk(s)
    ensures var c := CutAt(s.task.data, s.task.offset, s.tx.chunkSize);
      && |c.bytes| <= s.tx.chunkSize && s.task.offset + |c.bytes| <= |s.task.data|
      && (c.eof <==> s.task.offset + |c.bytes| == |s.task.data|) && (!c.eof ==> |c.bytes| > 0)
  {
    RungOf(s.reg, s.tx);
  }

  lemma OnwardFacts(s: Station, tx: Mode, w: Load)
    requires s.task.Sending? && s.hand.Some? && s.reg.Valid() && tx in s.reg.modes
    ensures var t := Onward(s, tx, w);
      && t.task == Sending(s.task.data, s.task.offset + |s.hand.value.bytes|, s.hand.value.eof)
      && t.tx in t.reg.modes && t.reg == s.reg && t.acked == s.acked + [s.hand.value] && t.sent == s.sent
  {
    hide RememberMode, StepMode, Registry.Valid, Registry.Index;
    var u := TakeAck(s.(tx := tx));
    StepMoves(u, Lean(w, tx == s.tx) > 0);
  }

  /** What one turn at a chunk comes to: the ARQ on it, and after its ACK the step to the next. */
  ghost predicate Chunked(s: Station, w: Load, retries: nat, after: nat, result: ArqResult, t: Station, next: Load,
                          keyed: nat)
    requires s.task.Sending? && s.task.offset <= |s.task.data|
  {
    var cut := CutNow(s);
    var run := ArqRun(cut, w.inbox, w.failures, retries, after);
    var left := w.(inbox := run.rest, failures := run.failures);
    && result == run.result && keyed == run.keyed
    && t == (if result.Acked? then Onward(cut, run.tx, left)
             else if result.PeerGone? then Gone(cut.(tx := run.tx)) else cut.(tx := run.tx))
    && next == if result.Acked? then Leant(left, run.tx == s.tx) else left
  }

  /** Where a chunk in hand leads when the ARQ on it has come to `run`. */
  ghost predicate Worked(cut: Station, w: Load, run: Arq, t: Station, next: Load)
    requires cut.task.Sending? && cut.hand.Some?
  {
    var left := w.(inbox := run.rest, failures := run.failures);
    match run.result
    case Acked =>
      && t == Adapted(TakeAck(cut.(tx := run.tx)), Lean(left, run.tx == cut.tx))
      && next == Leant(left, run.tx == cut.tx)
    case PeerGone => t == Gone(cut.(tx := run.tx)) && next == left
    case _ => t == cut.(tx := run.tx) && next == left
  }

  lemma WorkedIs(cut: Station, w: Load, run: Arq, t: Station, next: Load)
    requires cut.task.Sending? && cut.hand.Some?
    ensures var left := w.(inbox := run.rest, failures := run.failures);
      && (run.result.Acked? ==>
            t == Adapted(TakeAck(cut.(tx := run.tx)), Lean(left, run.tx == cut.tx)) ==>
              next == Leant(left, run.tx == cut.tx) ==> Worked(cut, w, run, t, next))
      && (run.result.PeerGone? && t == Gone(cut.(tx := run.tx)) && next == left ==> Worked(cut, w, run, t, next))
      && (run.result.NoAck? || run.result.Resize? ==>
            t == cut.(tx := run.tx) && next == left ==> Worked(cut, w, run, t, next))
  {
    hide Adapted, TakeAck, Lean, Leant, Gone;
  }

  lemma ChunkedIs(s: Station, w: Load, retries: nat, after: nat, run: Arq, t: Station, next: Load)
    requires s.task.Sending? && s.task.offset <= |s.task.data|
    requires run == ArqRun(CutNow(s), w.inbox, w.failures, retries, after) && Worked(CutNow(s), w, run, t, next)
    ensures Chunked(s, w, retries, after, run.result, t, next, run.keyed)
  {
    hide ArqRun, Leant, Lean, CutAt, TakeAck, Adapted, Gone;
  }

  /** What a message comes to with `keyed` keyings behind it. */
  ghost function SendOn(s: Station, w: Load, retries: nat, after: nat, keyed: nat): Send
    requires AtChunk(s)
  {
    var run := SendRun(s, w, retries, after);
    run.(keyed := run.keyed + keyed)
  }

  lemma SendStarts(s: Station, w: Load, retries: nat, after: nat)
    requires AtChunk(s)
    ensures SendRun(s, w, retries, after) == SendOn(s, w, retries, after, 0)
  {
    hide SendRun;
  }

  /** A turn takes the message on, or settles it. */
  lemma SendGoesOn(s: Station, w: Load, retries: nat, after: nat, keyed: nat, result: ArqResult, t: Station,
                   next: Load, more: nat)
    requires AtChunk(s) && Chunked(s, w, retries, after, result, t, next, more)
    ensures var run := SendOn(s, w, retries, after, keyed);
      match result
      case NoAck => run == Send(Unacknowledged, t.(task := Task.Failed), next, keyed + more)
      case PeerGone => run == Send(Disconnected, t, next, keyed + more)
      case Resize => AtChunk(t) && run == SendOn(t, next, retries, after, keyed + more)
      case Acked =>
        && t.task.Sending?
        && if t.task.finished
           then run == Send(Sent, t.(sent := t.sent + [s.task.data], task := Task.Resting), next, keyed + more)
           else AtChunk(t) && run == SendOn(t, next, retries, after, keyed + more)
  {
    hide ArqRun, Onward, Leant, CutAt, Registry.Valid, Registry.Index;
    ChunkFacts(s);
    var cut := CutNow(s);
    var run := ArqRun(cut, w.inbox, w.failures, retries, after);
    ArqLadder(cut, w.inbox, w.failures, retries, after);
    OnwardFacts(cut, run.tx, w.(inbox := run.rest, failures := run.failures));
  }

  /** Between two chunks the mode moves one rung the way the statistics lean, and not at all if ARQ just moved it. */
  lemma StepsBetween(s: Station, tx: Mode, w: Load)
    requires s.task.Sending? && s.hand.Some? && s.reg.Valid() && tx in s.reg.modes
    ensures var t, u := Onward(s, tx, w), TakeAck(s.(tx := tx));
      && (tx != s.tx || w.hunches == [] || w.hunches[0] == 0 ==> t.tx == tx)
      && (tx == s.tx && w.hunches != [] && w.hunches[0] != 0 ==>
            (t.tx != tx <==> CanStep(u, w.hunches[0] > 0))
            && (t.tx != tx ==> s.reg.Index(t.tx.id) == s.reg.Index(tx.id) + if w.hunches[0] > 0 then 1 else -1))
  {
    var u := TakeAck(s.(tx := tx));
    if w.hunches != [] { StepMoves(u, w.hunches[0] > 0); }
    hide RememberMode, StepMode, CanStep, Registry.Valid, Registry.Index;
  }

  /** Every chunk's first answer is the ACK that confirms it. */
  ghost predicate Smooth(s: Station, w: Load)
    requires AtChunk(s)
    decreases |s.task.data| - s.task.offset
  {
    ChunkFacts(s);
    var cut := CutNow(s);
    var left := w.(inbox := AwaitRun(cut, w.inbox).rest);
    OnwardFacts(cut, s.tx, left);
    && AwaitRun(cut, w.inbox).result.Acked?
    && (cut.hand.value.eof || Smooth(Onward(cut, s.tx, left), Leant(left, true)))
  }

  /** Such a message is sent, with one keying a chunk. */
  lemma {:induction false} SmoothIsSent(s: Station, w: Load, retries: nat, after: nat)
    requires AtChunk(s) && retries > 0 && Smooth(s, w)
    ensures var run := SendRun(s, w, retries, after);
      run.outcome == Sent && run.keyed == |run.st.acked| - |s.acked|
    decreases |s.task.data| - s.task.offset
  {
    hide AwaitRun, Onward, Leant, CutAt, Registry.Valid, Registry.Index;
    ChunkFacts(s);
    var cut := CutNow(s);
    var left := w.(inbox := AwaitRun(cut, w.inbox).rest);
    OnwardFacts(cut, s.tx, left);
    AckedAtOnce(cut, w.inbox, w.failures, retries, after);
    hide ArqRun;
    if !cut.hand.value.eof { SmoothIsSent(Onward(cut, s.tx, left), Leant(left, true), retries, after); }
  }

  /** From some arrival on, what the script brought ended `retries` waits without an ACK. */
  ghost predicate LeftUnacknowledged(inbox: seq<Arrival>, rest: seq<Arrival>, retries: nat) {
    exists n: nat :: GivenUpFrom(inbox, n, rest, retries)
  }

  /** A chunk is given up only after `retries` keyings of it, none of whose waits brought an ACK. */
  ghost predicate GaveAll(s: Station, w: Load, retries: nat, run: Send) {
    && |s.acked| <= |run.st.acked| && Leaves(w.inbox, run.load.inbox)
    && (run.outcome.Sent? ==> run.keyed >= |run.st.acked| - |s.acked|)
    && (run.outcome.Unacknowledged? ==>
          && run.keyed >= |run.st.acked| - |s.acked| + retries
          && LeftUnacknowledged(w.inbox, run.load.inbox, retries))
    && (run.outcome.Disconnected? ==> EndsIn(w.inbox, run.load.inbox, Heard(Frame.Disc)))
    && (run.outcome.Sent? || run.outcome.Unacknowledged? || run.outcome.Disconnected?)
  }

  /** From its `n`-th arrival on the script brings no ACK in `retries` waits. */
  ghost predicate GivenUpFrom(inbox: seq<Arrival>, n: nat, rest: seq<Arrival>, retries: nat) {
    n <= |inbox| && Lapsed(inbox[n..], rest, retries)
  }

  lemma {:induction false} SendsStubbornly(s: Station, w: Load, retries: nat, after: nat)
    requires AtChunk(s)
    ensures GaveAll(s, w, retries, SendRun(s, w, retries, after))
    decreases |s.task.data| - s.task.offset, s.reg.Index(s.tx.id)
  {
    hide ArqRun, Onward, Leant, CutAt, Registry.Valid, Registry.Index, Lapsed, EndsIn, Confirms;
    ChunkFacts(s);
    var cut := CutNow(s);
    var run := ArqRun(cut, w.inbox, w.failures, retries, after);
    var left := w.(inbox := run.rest, failures := run.failures);
    ArqLadder(cut, w.inbox, w.failures, retries, after);
    ArqPersists(cut, w.inbox, w.failures, retries, after);
    PersistsParts(cut, w.inbox, retries, run);
    hide Persists;
    match run.result
    case NoAck =>
      assert w.inbox[0..] == w.inbox && GivenUpFrom(w.inbox, 0, run.rest, retries);
    case PeerGone =>
    case Resize =>
      SendsStubbornly(cut.(tx := run.tx), left, retries, after);
      GaveAllOn(s, cut.(tx := run.tx), w, left, retries, run.keyed, SendRun(cut.(tx := run.tx), left, retries, after));
    case Acked =>
      var t, rest := Onward(cut, run.tx, left), Leant(left, run.tx == s.tx);
      OnwardFacts(cut, run.tx, left);
      LeantInbox(left, run.tx == s.tx);
      if !cut.hand.value.eof {
        SendsStubbornly(t, rest, retries, after);
        GaveAllOn(s, t, w, rest, retries, run.keyed, SendRun(t, rest, retries, after));
      }
  }

  lemma PersistsParts(s: Station, inbox: seq<Arrival>, left: nat, run: Arq)
    requires s.hand.Some? && Persists(s, inbox, left, run)
    ensures run.result.NoAck? ==> run.keyed == left && Lapsed(inbox, run.rest, left)
    ensures !run.result.NoAck? ==>
      run.keyed > 0 && Lapsed(inbox, run.rest, if run.result.Resize? then run.keyed else run.keyed - 1)
    ensures run.result.PeerGone? ==> EndsIn(inbox, run.rest, Heard(Frame.Disc))
    ensures Leaves(inbox, run.rest)
  {
    hide EndsIn, Confirms, Lapses, Used, Leaves;
  }

  lemma LeantInbox(w: Load, allow: bool)
    ensures Leant(w, allow).inbox == w.inbox
  {
  }

  lemma GaveAllOn(s: Station, t: Station, w: Load, left: Load, retries: nat, keyed: nat, run: Send)
    requires GaveAll(t, left, retries, run) && keyed > 0 && |s.acked| <= |t.acked| <= |s.acked| + 1
    requires Leaves(w.inbox, left.inbox)
    ensures GaveAll(s, w, retries, run.(keyed := run.keyed + keyed))
  {
    LeavesOn(w.inbox, left.inbox, run.load.inbox);
    UsedOn(w.inbox, left.inbox, run.load.inbox);
    if run.outcome.Unacknowledged? { GivenUpBefore(w.inbox, left.inbox, run.load.inbox, retries); }
    hide EndsIn, Lapses, Used, LeftUnacknowledged, Leaves;
  }

  lemma GivenUpBefore(inbox: seq<Arrival>, mid: seq<Arrival>, rest: seq<Arrival>, retries: nat)
    requires Leaves(inbox, mid) && LeftUnacknowledged(mid, rest, retries)
    ensures LeftUnacknowledged(inbox, rest, retries)
  {
    var m := |inbox| - |mid|;
    var n: nat :| GivenUpFrom(mid, n, rest, retries);
    assert inbox[m + n..] == mid[n..];
    assert GivenUpFrom(inbox, m + n, rest, retries);
    hide Lapsed;
  }

  // -- send_message as a whole ----------------------------------------------------------------------------------

  datatype Whole = Whole(outcome: Outcome, st: Station, load: Load, stale: seq<bool>, keyed: nat)

  /** A connected station, its mode on its ladder. */
  ghost predicate Ready(s: Station) {
    s.state == CONNECTED && s.reg.Valid() && s.tx in s.reg.modes
  }

  function WithMessage(s: Station, data: Bytes): Station {
    s.(given := s.given + [data])
  }

  function AskingFor(s: Station, data: Bytes): Station {
    WithMessage(s, data).(task := Task.Asking(data))
  }

  /** The floor comes with the message cut and the mode as it was. */
  lemma {:induction false} FloorGrants(s: Station, inbox: seq<Arrival>, stale: seq<bool>, attempt: nat, retries: nat)
    requires s.task.Asking?
    ensures !FloorRun(s, inbox, stale, attempt, retries).reply.TookData?
    ensures var run := FloorRun(s, inbox, stale, attempt, retries);
      run.reply.Granted? ==>
        && run.st.task == Sending(s.task.message, 0, false) && run.st.reg == s.reg && run.st.tx == s.tx
        && run.st.acked == s.acked
    decreases |inbox| + |stale|, if attempt < retries then retries - attempt else 0
  {
    hide Found, Rest, PartRun, HandleData, Later, TookForFloor, CutAt, Expired;
    var half, got, rest := Halfway(s), Found(inbox, FLOORS), Rest(inbox, FLOORS);
    var later := if half then Later(stale) else stale;
    WaitShrinks(inbox, FLOORS);
    ClockShrinks(inbox, stale);
    if attempt < retries && !(half && Expired(inbox, stale)) {
      if got.None? {
        FloorGrants(s, rest, later, attempt + if half then 0 else 1, retries);
      } else if got.value.Data? {
        FloorGrants(TookForFloor(s, got.value), rest, later, if half then attempt else 0, retries);
      }
    }
  }

  /** The floor first, unless it is held, then the message chunk by chunk. */
  ghost function MessageRun(s: Station, data: Bytes, w: Load, stale: seq<bool>, retries: nat, after: nat): Whole
    requires Ready(s)
  {
    if s.role.ISS? then
      var run := SendRun(BeginSending(WithMessage(s, data), data), w, retries, after);
      Whole(run.outcome, run.st, run.load, stale, run.keyed)
    else
      var floor := FloorRun(AskingFor(s, data), w.inbox, stale, 0, retries);
      FloorGrants(AskingFor(s, data), w.inbox, stale, 0, retries);
      var left := w.(inbox := floor.rest);
      if floor.reply.Granted? then
        var run := SendRun(floor.st, left, retries, after);
        Whole(run.outcome, run.st, run.load, floor.stale, run.keyed)
      else
        Whole(if floor.reply.PeerLeft? then Disconnected else NoFloor, floor.st, left, floor.stale, 0)
  }

  lemma ReadyIs(s: Station)
    requires s.state == CONNECTED && s.reg.Valid() && s.tx in s.reg.modes
    ensures Ready(s)
  {
  }

  lemma ChunkStarts(s: Station, data: Bytes)
    requires s.task == Sending(data, 0, false) && s.reg.Valid() && s.tx in s.reg.modes
    ensures AtChunk(s)
  {
  }

  /** The call to send has begun: with the floor in hand the first chunk is, without it the floor is asked for. */
  lemma StartedAs(s: Station, t: Station, data: Bytes)
    requires s.task.Resting? && s.state == CONNECTED && Can(s, StartSend(data)) && t == Do(s, StartSend(data)).st
    ensures t == if s.role.ISS? then BeginSending(WithMessage(s, data), data) else AskingFor(s, data)
  {
    hide BeginSending;
  }

  /** What the floor's coming, or not, makes of the whole call. */
  lemma MessageParts(s: Station, data: Bytes, w: Load, stale: seq<bool>, retries: nat, after: nat,
                     reply: FloorReply, t: Station, rest: seq<Arrival>, later: seq<bool>)
    requires Ready(s)
    requires if s.role.ISS? then
               reply.Granted? && t == BeginSending(WithMessage(s, data), data) && rest == w.inbox && later == stale
             else
               var run := FloorRun(AskingFor(s, data), w.inbox, stale, 0, retries);
               reply == run.reply && t == run.st && rest == run.rest && later == run.stale
    requires reply.Granted? ==> AtChunk(t)
    ensures var left, whole := w.(inbox := rest), MessageRun(s, data, w, stale, retries, after);
      && (reply.Granted? ==>
            var run := SendRun(t, left, retries, after);
            whole == Whole(run.outcome, run.st, run.load, later, run.keyed))
      && (reply.PeerLeft? ==> whole == Whole(Disconnected, t, left, later, 0))
      && (reply.Quiet? ==> whole == Whole(NoFloor, t, left, later, 0))
  {
    hide SendRun, FloorRun, BeginSending, Registry.Valid;
  }

  /** The floor is held, or granted at the first request, and every chunk's first answer confirms it. */
  ghost predicate AllSmooth(s: Station, data: Bytes, w: Load)
    requires Ready(s)
  {
    if s.role.ISS? then Smooth(BeginSending(WithMessage(s, data), data), w)
    else
      && !Halfway(s) && Found(w.inbox, FLOORS) == Some(FloorGrant)
      && Smooth(BeginSending(AskingFor(s, data), data), w.(inbox := Rest(w.inbox, FLOORS)))
  }

  /** Such a message is sent, and takes one keying a chunk. */
  lemma SmoothMessage(s: Station, data: Bytes, w: Load, stale: seq<bool>, retries: nat, after: nat)
    requires Ready(s) && retries > 0 && AllSmooth(s, data, w)
    ensures var run := MessageRun(s, data, w, stale, retries, after);
      run.outcome == Sent && run.keyed == |run.st.acked| - |s.acked| && run.stale == stale
  {
    hide Found, Rest, CutAt, Smooth, SendRun, FloorRun, Registry.Valid;
    if s.role.ISS? {
      SmoothIsSent(BeginSending(WithMessage(s, data), data), w, retries, after);
    } else {
      GrantTaken(AskingFor(s, data), w.inbox, stale, retries);
      SmoothIsSent(BeginSending(AskingFor(s, data), data), w.(inbox := Rest(w.inbox, FLOORS)), retries, after);
    }
  }

  lemma LeavesRest(inbox: seq<Arrival>, want: set<Kind>)
    ensures Leaves(inbox, Rest(inbox, want))
  {
    hide EndsAt;
  }

  lemma LeavesOn(inbox: seq<Arrival>, mid: seq<Arrival>, rest: seq<Arrival>)
    requires Leaves(inbox, mid) && Leaves(mid, rest)
    ensures Leaves(inbox, rest)
  {
  }

  lemma {:induction false} PartLeaves(inbox: seq<Arrival>)
    ensures Leaves(inbox, PartRun(inbox, 1).rest)
  {
    hide Rest, Found;
    LeavesRest(inbox, PARTING);
    assert PartRun(Rest(inbox, PARTING), 0).rest == Rest(inbox, PARTING);
  }

  lemma {:induction false} FloorLeaves(s: Station, inbox: seq<Arrival>, stale: seq<bool>, attempt: nat, retries: nat)
    requires s.task.Asking?
    ensures Leaves(inbox, FloorRun(s, inbox, stale, attempt, retries).rest)
    decreases |inbox| + |stale|, if attempt < retries then retries - attempt else 0
  {
    hide Found, Rest, PartRun, HandleData, Later, TookForFloor, CutAt, Expired, Leaves;
    var half, got, rest := Halfway(s), Found(inbox, FLOORS), Rest(inbox, FLOORS);
    var later := if half then Later(stale) else stale;
    WaitShrinks(inbox, FLOORS);
    ClockShrinks(inbox, stale);
    PartLeaves(inbox);
    LeavesRest(inbox, FLOORS);
    LeavesAll(inbox);
    if attempt < retries && !(half && Expired(inbox, stale)) {
      if got.None? {
        FloorLeaves(s, rest, later, attempt + if half then 0 else 1, retries);
        LeavesOn(inbox, rest, FloorRun(s, rest, later, attempt + if half then 0 else 1, retries).rest);
      } else if got.value.Data? {
        var t, next := TookForFloor(s, got.value), if half then attempt else 0;
        FloorLeaves(t, rest, later, next, retries);
        LeavesOn(inbox, rest, FloorRun(t, rest, later, next, retries).rest);
      }
    }
  }

  lemma LeavesAll(inbox: seq<Arrival>)
    ensures Leaves(inbox, inbox)
  {
  }

  /** The last `retries` requests for the floor came to nothing. */
  ghost predicate LeftUnheeded(inbox: seq<Arrival>, rest: seq<Arrival>, retries: nat) {
    exists n: nat :: n >= retries && AfterWaits(inbox, FLOORS, n) == rest
                     && forall k: nat :: n - retries <= k < n ==> Brings(inbox, FLOORS, k).None?
  }

  /**
   A message fails for one of three reasons: `retries` requests for the floor in a row came to nothing, `retries`
   keyings of one chunk were followed by as many waits without an ACK, or the peer has gone.
   */
  lemma MessageFails(s: Station, data: Bytes, w: Load, stale: seq<bool>, retries: nat, after: nat)
    requires Ready(s)
    ensures var run := MessageRun(s, data, w, stale, retries, after);
      && run.outcome != NotConnected
      && (run.outcome.NoFloor? ==> !s.role.ISS? && LeftUnheeded(w.inbox, run.load.inbox, retries))
      && (run.outcome.Unacknowledged? ==>
            && LeftUnacknowledged(w.inbox, run.load.inbox, retries)
            && |s.acked| <= |run.st.acked| <= |s.acked| + run.keyed - retries)
  {
    hide Found, Rest, CutAt, SendRun, FloorRun, Registry.Valid, Unheeded, GaveAll, Leaves, GivenUpFrom;
    if s.role.ISS? {
      var t := BeginSending(WithMessage(s, data), data);
      SendsStubbornly(t, w, retries, after);
      StubbornParts(t, w, retries, SendRun(t, w, retries, after));
    } else {
      var a := AskingFor(s, data);
      var floor := FloorRun(a, w.inbox, stale, 0, retries);
      AsksPatiently(a, w.inbox, stale, 0, retries);
      UnheededMeans(w.inbox, retries, floor);
      FloorGrants(a, w.inbox, stale, 0, retries);
      FloorLeaves(a, w.inbox, stale, 0, retries);
      if floor.reply.Granted? {
        var left := w.(inbox := floor.rest);
        SendsStubbornly(floor.st, left, retries, after);
        StubbornParts(floor.st, left, retries, SendRun(floor.st, left, retries, after));
        if SendRun(floor.st, left, retries, after).outcome.Unacknowledged? {
          GivenUpBefore(w.inbox, floor.rest, SendRun(floor.st, left, retries, after).load.inbox, retries);
        }
      }
    }
  }

  lemma StubbornParts(s: Station, w: Load, retries: nat, run: Send)
    requires GaveAll(s, w, retries, run)
    ensures run.outcome.Sent? || run.outcome.Unacknowledged? || run.outcome.Disconnected?
    ensures run.outcome.Unacknowledged? ==>
      && LeftUnacknowledged(w.inbox, run.load.inbox, retries)
      && |s.acked| <= |run.st.acked| <= |s.acked| + run.keyed - retries
  {
    hide GivenUpFrom;
  }

  lemma UnheededMeans(inbox: seq<Arrival>, retries: nat, run: Floor)
    requires Unheeded(inbox, retries, retries, run)
    ensures run.reply.Quiet? ==> LeftUnheeded(inbox, run.rest, retries)
  {
    hide AfterWaits, Brings;
  }
}
