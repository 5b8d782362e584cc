/**
 One station of the half-duplex link: its protocol state, and what each thing
 that can happen to it (a call made by its application, a timeout, a frame
 taken from its packet queue) does to that state and puts on the air.

 `Can` and `Do` are the specification that the methods of class Link are proved
 against, and the steps of which every run of two stations is made.
 */
module LinkStation {
  import opened Common

  const SEQ_MODULO := 128

  /** A waveform: its wire id and how many payload bytes one DATA frame carries. */
  datatype Mode = Mode(id: nat, chunkSize: nat)

  /** The ordered ladder of negotiable modes, slowest first, and the control mode. */
  datatype Registry = Registry(modes: seq<Mode>, control: Mode) {
    ghost predicate Valid() {
      && control in modes
      && (forall i, j :: 0 <= i < j < |modes| ==> modes[i].id != modes[j].id)
      && (forall i :: 0 <= i < |modes| ==> modes[i].chunkSize > 0)
    }

    function Index(id: nat): (i: nat)
      ensures i <= |modes|
      ensures i < |modes| ==> modes[i].id == id
      ensures i == |modes| ==> forall k :: 0 <= k < |modes| ==> modes[k].id != id
    {
      IndexFrom(id, 0)
    }

    function IndexFrom(id: nat, from: nat): (i: nat)
      requires from <= |modes|
      ensures from <= i <= |modes|
      ensures i < |modes| ==> modes[i].id == id
      ensures forall k :: from <= k < i ==> modes[k].id != id
      decreases |modes| - from
    {
      if from == |modes| || modes[from].id == id then from else IndexFrom(id, from + 1)
    }

    predicate Supports(id: nat) {
      Index(id) < |modes|
    }

    function Ids(): (ids: seq<nat>)
      ensures |ids| == |modes|
      ensures forall i :: 0 <= i < |ids| ==> ids[i] == modes[i].id
    {
      seq(|modes|, i requires 0 <= i < |modes| => modes[i].id)
    }

    /** An id this station does not know falls back to the control mode. */
    function Resolve(id: nat): (m: Mode)
      ensures Supports(id) ==> m.id == id && m in modes
      ensures !Supports(id) ==> m == control
    {
      if Supports(id) then modes[Index(id)] else control
    }

    /** The neighbouring rung, if there is one. */
    function Step(current: Mode, up: bool): (m: Option<Mode>)
      ensures m.Some? ==> m.value in modes && Supports(current.id)
      ensures m.Some? ==>
        var next := Index(current.id) + (if up then 1 else -1);
        0 <= next < |modes| && m.value == modes[next]
    {
      var at := Index(current.id);
      var next := at + (if up then 1 else -1);
      if at < |modes| && 0 <= next < |modes| then Some(modes[next]) else None
    }
  }

  /** A mode steps to another exactly when that is the next one up or down the ladder. */
  lemma StepsTo(r: Registry, i: nat, up: bool, m: Mode)
    requires r.Valid() && i < |r.modes|
    ensures r.Step(r.modes[i], up) == Some(m) <==>
      exists k :: 0 <= k < |r.modes| && k == i + (if up then 1 else -1) && r.modes[k] == m
  {
    assert r.Index(r.modes[i].id) == i;
  }

  /** What one keying carries. */
  datatype Frame =
    | Connect(src: string, dst: string, modes: seq<nat>, proposed: nat, sid: nat)
    | ConnectAck(src: string, dst: string, modes: seq<nat>, accepted: nat, own: nat, sid: nat)
    | Disc
    | DiscAck
    | Data(seqNo: nat, eof: bool, chunk: Bytes, mode: nat)
    | DataAck(answered: nat, expects: nat, received: nat)
    | FloorReq
    | FloorGrant

  datatype LinkState = IDLE | CONNECTING | LISTENING | CONNECTED
  datatype Role = NoRole | ISS | IRS

  /** One ARQ unit: the bytes of a DATA frame and whether they end a message. */
  datatype Chunk = Chunk(bytes: Bytes, eof: bool)

  /**
   The blocking call the station is inside. `Failed` is a call that raised
   LinkError with the session still up; `Sending` with no chunk in hand is the
   moment between two chunks of a message.
   */
  datatype Task =
    | Resting
    | Calling(body: Frame)
    | Answering
    | Receiving
    | Asking(message: Bytes)
    | Sending(data: Bytes, offset: nat, finished: bool)
    | Failed
    | Leaving

  /**
   `task` stands for the point the worker thread has reached. `hand` is the chunk
   cut but not yet acknowledged. The fields from `calls` on are history: ids issued,
   and what this session agreed, had acknowledged, accepted, was given to send,
   finished sending and delivered.
   */
  datatype Station = Station(
    call: string, reg: Registry,
    state: LinkState, role: Role,
    peer: Option<string>, peerModes: set<nat>,
    tx: Mode, rx: Mode,
    txSeq: nat, rxExpect: nat,
    partial: Option<Bytes>, pending: seq<Bytes>,
    sid: nat, ackBody: Option<Frame>,
    lastGood: map<string, nat>,
    task: Task, hand: Option<Chunk>,
    calls: set<nat>, caller: bool, up: nat, down: nat,
    acked: seq<Chunk>, taken: seq<Chunk>, given: seq<Bytes>, sent: seq<Bytes>, heard: seq<Bytes>)

  /** What a station does next. */
  datatype Act =
    | Call(dst: string, newSid: nat)
    | KeyConnect
    | GiveUpCall
    | Listen
    | StopListening
    | StartRecv
    | StopRecv
    | PopPending
    | StartSend(data: Bytes)
    | Ask
    | GiveUpFloor
    | Key
    | Shift(up: bool)
    | Recut
    | Cut
    | Done
    | GiveUpSend
    | Leave
    | KeyDisc
    | Left
    | Hang
    | Hear(frame: Frame)
    | Resume

  /** A station after an act, and the frame the act keyed, if any. */
  datatype Deed = Deed(st: Station, out: Option<Frame>)

  // -- sequence numbers and messages ---------------------------------------

  function SeqAhead(a: int, b: int): (d: nat)
    ensures d < SEQ_MODULO
  {
    (a - b) % SEQ_MODULO
  }

  /** The one distance below the modulus that leads from the second number to the first. */
  lemma SeqAheadIs(a: int, b: int, d: int)
    ensures SeqAhead(a, b) == d <==> 0 <= d < SEQ_MODULO && (b + d) % SEQ_MODULO == a % SEQ_MODULO
  {
  }

  /** The messages completed by a list of chunks, and the bytes after the last EOF. */
  function Messages(chunks: seq<Chunk>): (ms: seq<Bytes>)
    decreases |chunks|
  {
    if chunks == [] then []
    else
      var init := chunks[..|chunks| - 1];
      if chunks[|chunks| - 1].eof then Messages(init) + [Tail(init) + chunks[|chunks| - 1].bytes]
      else Messages(init)
  }

  function Tail(chunks: seq<Chunk>): (t: Bytes)
    decreases |chunks|
  {
    if chunks == [] || chunks[|chunks| - 1].eof then []
    else Tail(chunks[..|chunks| - 1]) + chunks[|chunks| - 1].bytes
  }

  /** The next chunk of `data` at `offset`, cut for frames of `size` bytes. */
  function CutAt(data: Bytes, offset: nat, size: nat): (c: Chunk)
    requires offset <= |data|
    ensures |c.bytes| <= size
    ensures offset + |c.bytes| <= |data|
    ensures c.bytes == data[offset..offset + |c.bytes|]
    ensures c.eof <==> offset + |c.bytes| == |data|
  {
    var end := Min(offset + size, |data|);
    Chunk(data[offset..end], end == |data|)
  }

  /** Every chunk but the last is as long as the mode carries, and there is always a last one. */
  lemma CutsFull(data: Bytes, offset: nat, size: nat)
    requires offset <= |data|
    ensures var c := CutAt(data, offset, size);
      && data == data[..offset] + c.bytes + data[offset + |c.bytes|..]
      && (c.eof <==> |data| - offset <= size) && (!c.eof ==> |c.bytes| == size)
  {
  }

  // -- the handshake ---------------------------------------------------------

  /** The mode last proved towards `peer`, if this station still offers it, else control. */
  function Remembered(s: Station, peer: string): (id: nat)
  {
    if peer in s.lastGood && s.reg.Supports(s.lastGood[peer]) then s.lastGood[peer]
    else s.reg.control.id
  }

  function CallBody(s: Station, dst: string, sid: nat): Frame {
    Connect(s.call, dst, s.reg.Ids(), Remembered(s, dst), sid)
  }

  /** The CONNECT_ACK with which a listener answers a CONNECT. */
  function Answer(s: Station, c: Frame): (ack: Frame)
    requires c.Connect?
    ensures ack.ConnectAck? && ack.sid == c.sid && ack.dst == c.src
  {
    var accepted := if s.reg.Supports(c.proposed) then c.proposed else s.reg.control.id;
    var mine := Remembered(s, c.src);
    var own := if mine in c.modes then mine else s.reg.control.id;
    ConnectAck(s.call, c.src, s.reg.Ids(), accepted, own, c.sid)
  }

  /** Everything scoped to one session, cleared as a session begins. */
  function ResetSequence(s: Station): Station {
    s.(partial := None, pending := [], txSeq := 0, rxExpect := 0, hand := None,
       acked := [], taken := [], given := [], sent := [], heard := [])
  }

  function Accept(s: Station, c: Frame): Deed
    requires c.Connect?
  {
    var ack := Answer(s, c);
    Deed(ResetSequence(s.(
           peer := Some(c.src), peerModes := (set m | m in c.modes), sid := c.sid, ackBody := Some(ack),
           rx := s.reg.Resolve(ack.accepted), tx := s.reg.Resolve(ack.own),
           state := CONNECTED, role := IRS, task := Resting,
           caller := false, up := ack.accepted, down := ack.own)),
         Some(ack))
  }

  function TakeConnectAck(s: Station, ack: Frame): Station
    requires ack.ConnectAck?
  {
    ResetSequence(s.(
      peer := Some(ack.src), peerModes := (set m | m in ack.modes),
      tx := s.reg.Resolve(ack.accepted), rx := s.reg.Resolve(ack.own),
      state := CONNECTED, role := ISS, task := Resting,
      caller := true, up := ack.accepted, down := ack.own))
  }

  /** A retry of the session this station is already in. */
  predicate IsDuplicateConnect(s: Station, f: Frame) {
    && f.Connect?
    && (s.state.LISTENING? || s.state.CONNECTED?)
    && s.ackBody.Some?
    && f.dst == s.call && s.peer == Some(f.src) && f.sid == s.sid
  }

  // -- data ------------------------------------------------------------------

  /** Consumes one DATA frame: accepts it or drops it as a duplicate, and answers it. */
  function HandleData(s: Station, f: Frame): (d: Deed)
    requires f.Data?
    ensures d.out.Some?
  {
    var rx := s.reg.Resolve(f.mode);
    var held := if s.partial.Some? then s.partial.value else [];
    if f.seqNo == s.rxExpect then
      var next := (f.seqNo + 1) % SEQ_MODULO;
      var whole := held + f.chunk;
      var s' := s.(rx := rx, rxExpect := next, taken := s.taken + [Chunk(f.chunk, f.eof)],
                   partial := Some(if f.eof then [] else whole),
                   heard := if f.eof then s.heard + [whole] else s.heard);
      Deed(s', Some(DataAck(f.seqNo, next, rx.id)))
    else
      Deed(s.(rx := rx, partial := Some(held)), Some(DataAck(f.seqNo, s.rxExpect, rx.id)))
  }

  /** The message completed by a DATA frame, if it completed one. */
  function Completed(s: Station, f: Frame): Option<Bytes>
    requires f.Data?
  {
    if f.seqNo == s.rxExpect && f.eof
    then Some((if s.partial.Some? then s.partial.value else []) + f.chunk)
    else None
  }

  /** The ACK the frame in flight is waiting for. */
  predicate Confirms(s: Station, f: Frame) {
    && f.DataAck?
    && f.answered == s.txSeq
    && SeqAhead(f.expects, s.txSeq) == 1
    && f.received == s.tx.id
  }

  function RememberMode(s: Station): map<string, nat> {
    if s.peer.None? then s.lastGood
    else
      var p := s.peer.value;
      if p !in s.lastGood || !s.reg.Supports(s.lastGood[p])
         || s.reg.Index(s.tx.id) > s.reg.Index(s.lastGood[p])
      then s.lastGood[p := s.tx.id]
      else s.lastGood
  }

  function TakeAck(s: Station): Station
    requires s.task.Sending? && s.hand.Some?
  {
    var c := s.hand.value;
    s.(acked := s.acked + [c], hand := None, txSeq := (s.txSeq + 1) % SEQ_MODULO,
       lastGood := RememberMode(s),
       task := Sending(s.task.data, s.task.offset + |c.bytes|, c.eof))
  }

  function StepMode(s: Station, up: bool): Station {
    var m := s.reg.Step(s.tx, up);
    if m.Some? && m.value.id in s.peerModes then s.(tx := m.value) else s
  }

  function BeginSending(s: Station, data: Bytes): Station {
    s.(role := ISS, task := Sending(data, 0, false), hand := Some(CutAt(data, 0, s.tx.chunkSize)))
  }

  // -- teardown --------------------------------------------------------------

  function Gone(s: Station): Station {
    s.(state := IDLE, peer := None, sid := 0, ackBody := None, task := Resting, hand := None)
  }

  // -- the step --------------------------------------------------------------

  /** Whether the station is at a point where it takes packets from its queue. */
  predicate Hearing(s: Station) {
    match s.task
    case Calling(_) => true
    case Answering => true
    case Receiving => true
    case Asking(_) => true
    case Sending(_, _, _) => s.hand.Some?
    case Leaving => true
    case Resting => false
    case Failed => false
  }

  predicate Can(s: Station, a: Act) {
    match a
    case Call(dst, sid) => s.task.Resting? && sid > 0
    case KeyConnect => s.task.Calling?
    case GiveUpCall => s.task.Calling?
    case Listen => s.task.Resting?
    case StopListening => s.task.Answering?
    case StartRecv => s.task.Resting? && s.state.CONNECTED? && s.pending == []
    case StopRecv => s.task.Receiving?
    case PopPending => s.task.Resting? && s.state.CONNECTED? && s.pending != []
    case StartSend(data) => s.task.Resting? && s.state.CONNECTED?
    case Ask => s.task.Asking? && (s.partial.None? || s.partial.value == [])
    case GiveUpFloor => s.task.Asking?
    case Key => s.task.Sending? && s.hand.Some? && |s.hand.value.bytes| <= s.tx.chunkSize
    case Shift(up) => s.task.Sending? && (s.hand.Some? ==> !up)
    case Recut => s.task.Sending? && s.hand.Some? && |s.hand.value.bytes| > s.tx.chunkSize
                  && s.task.offset <= |s.task.data|
    case Cut => s.task.Sending? && s.hand.None? && !s.task.finished && s.task.offset <= |s.task.data|
    case Done => s.task.Sending? && s.hand.None? && s.task.finished
    case GiveUpSend => s.task.Sending? && s.hand.Some?
    case Leave => (s.task.Resting? || s.task.Receiving? || s.task.Asking? || s.task.Failed?) && s.state.CONNECTED?
    case KeyDisc => s.task.Leaving?
    case Left => s.task.Leaving?
    case Hang => s.task.Resting? && !s.state.CONNECTED?
    case Hear(f) => Hearing(s)
    case Resume => s.task.Failed?
  }

  function Do(s: Station, a: Act): (d: Deed)
    requires Can(s, a)
  {
    match a
    case Call(dst, sid) =>
      Deed(s.(state := CONNECTING, sid := sid, calls := s.calls + {sid},
              task := Calling(CallBody(s, dst, sid))), None)
    case KeyConnect => Deed(s, Some(s.task.body))
    case GiveUpCall => Deed(s.(state := IDLE, sid := 0, task := Resting), Some(Disc))
    case Listen => Deed(s.(state := LISTENING, task := Answering), None)
    case StopListening => Deed(s.(task := Resting), None)
    case StartRecv =>
      Deed(s.(task := Receiving, partial := if s.partial.None? then Some([]) else s.partial), None)
    case StopRecv => Deed(s.(task := Resting), None)
    case PopPending => Deed(s.(pending := s.pending[1..]), None)
    case StartSend(data) =>
      var g := s.(given := s.given + [data]);
      Deed(if s.role.ISS? then BeginSending(g, data) else g.(task := Asking(data)), None)
    case Ask => Deed(s, Some(FloorReq))
    case GiveUpFloor => Deed(s.(task := Failed), None)
    case Key => Deed(s, Some(Data(s.txSeq, s.hand.value.eof, s.hand.value.bytes, s.tx.id)))
    case Shift(up) => Deed(StepMode(s, up), None)
    case Recut => Deed(s.(hand := Some(CutAt(s.task.data, s.task.offset, s.tx.chunkSize))), None)
    case Cut => Deed(s.(hand := Some(CutAt(s.task.data, s.task.offset, s.tx.chunkSize))), None)
    case Done => Deed(s.(sent := s.sent + [s.task.data], task := Resting), None)
    case GiveUpSend => Deed(s.(task := Failed), None)
    case Leave => Deed(s.(task := Leaving), None)
    case KeyDisc => Deed(s, Some(Disc))
    case Left => Deed(Gone(s), None)
    case Hang => Deed(s.(state := IDLE), None)
    case Resume => Deed(s.(task := Resting, hand := None), None)
    case Hear(f) => React(s, f)
  }

  /** What the packet at the head of the queue does to a station waiting for one. */
  function React(s: Station, f: Frame): (d: Deed)
    requires Hearing(s)
  {
    if s.task.Calling? then
      if f.ConnectAck? && f.dst == s.call && f.sid == s.sid then Deed(TakeConnectAck(s, f), None)
      else Deed(s, None)
    else if s.task.Answering? then
      if !f.Connect? then Deed(s, None)
      else if f.dst != s.call then Deed(s.(task := Resting), None)
      else Accept(s, f)
    else if IsDuplicateConnect(s, f) then Deed(s, s.ackBody)
    else if s.task.Leaving? then
      if f.Disc? || f.DiscAck? then Deed(Gone(s), None) else Deed(s, None)
    else if f.Disc? then Deed(Gone(s), Some(DiscAck))
    else if s.task.Sending? then
      if Confirms(s, f) then Deed(TakeAck(s), None) else Deed(s, None)
    else if f.Data? then
      var d := HandleData(s, f);
      var m := Completed(s, f);
      if m.None? then d
      else if s.task.Asking? then Deed(d.st.(pending := s.pending + [m.value]), d.out)
      else Deed(d.st.(task := Resting), d.out)
    else if s.task.Receiving? && f.FloorReq? then Deed(s.(role := IRS), Some(FloorGrant))
    else if s.task.Asking? && f.FloorGrant? then Deed(BeginSending(s, s.task.message), None)
    else Deed(s, None)
  }

  /** Hearing a frame is reacting to it. */
  lemma HearDoes(s: Station, f: Frame)
    requires Can(s, Hear(f))
    ensures Hearing(s) && Do(s, Hear(f)) == React(s, f)
  {
    hide React;
  }
}
