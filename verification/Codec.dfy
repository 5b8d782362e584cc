/**
 The link's wire formats: the checked air header and the shape rules behind it, the connection
 bodies, and the frames of LinkStation as bytes.
 */
module Codec {
  import opened Common
  import opened LinkStation

  const PT_CONNECT: Byte := 1
  const PT_CONNECT_ACK: Byte := 2
  const PT_DISC: Byte := 3
  const PT_DISC_ACK: Byte := 4
  const PT_DATA: Byte := 5
  const PT_DATA_ACK: Byte := 6
  const PT_FLOOR_REQ: Byte := 9
  const PT_FLOOR_GRANT: Byte := 10

  const AIR_VERSION: Byte := 3
  const AIR_HEADER_LEN := 10
  const MAX_PAYLOAD_BYTES := 65535
  const MAX_CONNECT_BYTES := 128
  const EOF_BIT := 128

  function AirMagic(): Bytes { [87, 72] }

  // -- the air header ------------------------------------------------------------------

  function InlineLength(ptype: Byte): (n: nat)
    ensures n <= 2
  {
    if ptype == PT_CONNECT || ptype == PT_CONNECT_ACK || ptype == PT_DATA_ACK then 2
    else if ptype == PT_DATA then 1
    else 0
  }

  /** A two-byte field, high byte first. */
  function Number(hi: Byte, lo: Byte): nat {
    256 * (hi as int) + lo
  }

  /** The first bytes of a body that ride in the header. */
  function Inline(ptype: Byte, body: Bytes): (i: Bytes)
    ensures |i| <= 2 && i <= body
  {
    body[..Min(InlineLength(ptype), |body|)]
  }

  function Padded(i: Bytes): (p: Bytes)
    requires |i| <= 2
    ensures |p| == 2
  {
    if |i| == 0 then [0, 0] else if |i| == 1 then i + [0] else i
  }

  /** Header and the rest of the body; fails on a body too long for the length field. */
  function EncodeAir(ptype: Byte, mode: Byte, body: Bytes): (packet: Option<Bytes>)
    ensures packet.Some? ==> |packet.value| >= AIR_HEADER_LEN
  {
    var inline := Inline(ptype, body);
    var rest := body[|inline|..];
    if |rest| > MAX_PAYLOAD_BYTES then None
    else
      Some(AirMagic() + [AIR_VERSION, ptype, mode, |inline|] + [|rest| / 256, |rest| % 256] + Padded(inline) + rest)
  }

  datatype Header = Header(ptype: Byte, mode: Byte, length: nat, inline: Bytes)

  function DecodeHeader(raw: Bytes): Option<Header> {
    if |raw| != AIR_HEADER_LEN || raw[..2] != AirMagic() || raw[2] != AIR_VERSION || raw[5] > 2 then None
    else if exists i :: 8 + raw[5] <= i < 10 && raw[i] != 0 then None
    else Some(Header(raw[3], raw[4], Number(raw[6], raw[7]), raw[8..8 + raw[5]]))
  }

  predicate ValidShape(h: Header, profile: Mode, control: Mode) {
    if h.ptype == PT_DATA then |h.inline| == 1 && h.length <= profile.chunkSize
    else if profile.id != control.id then false
    else if h.ptype == PT_CONNECT || h.ptype == PT_CONNECT_ACK then |h.inline| == 2 && 0 < h.length <= MAX_CONNECT_BYTES
    else if h.ptype == PT_DATA_ACK then |h.inline| == 2 && h.length == 1
    else if h.ptype == PT_DISC || h.ptype == PT_DISC_ACK || h.ptype == PT_FLOOR_REQ || h.ptype == PT_FLOOR_GRANT
    then |h.inline| == 0 && h.length == 0
    else false
  }

  /** A packet type and its whole body. */
  datatype Packet = Packet(ptype: Byte, body: Bytes)

  /** What the receiver makes of a payload that `profile` decoded. */
  function Accept(reg: Registry, profile: Mode, payload: Bytes): Option<Packet> {
    if |payload| < AIR_HEADER_LEN then None
    else
      var h := DecodeHeader(payload[..AIR_HEADER_LEN]);
      var rest := payload[AIR_HEADER_LEN..];
      if h.None? || !reg.Supports(h.value.mode) || reg.Resolve(h.value.mode) != profile || |rest| != h.value.length
         || !ValidShape(h.value, profile, reg.control)
      then None
      else Some(Packet(h.value.ptype, h.value.inline + rest))
  }

  /** The bodies each packet type may carry in a mode. */
  predicate Legal(ptype: Byte, body: Bytes, profile: Mode, control: Mode) {
    if ptype == PT_DATA then 1 <= |body| <= 1 + profile.chunkSize
    else
      profile.id == control.id &&
      (if ptype == PT_CONNECT || ptype == PT_CONNECT_ACK then 2 < |body| <= 2 + MAX_CONNECT_BYTES
       else if ptype == PT_DATA_ACK then |body| == 3
       else
         (ptype == PT_DISC || ptype == PT_DISC_ACK || ptype == PT_FLOOR_REQ || ptype == PT_FLOOR_GRANT) && body == [])
  }

  lemma HeaderRoundTrip(ptype: Byte, mode: Byte, body: Bytes)
    requires EncodeAir(ptype, mode, body).Some?
    ensures var inline, packet := Inline(ptype, body), EncodeAir(ptype, mode, body).value;
      && DecodeHeader(packet[..AIR_HEADER_LEN]) == Some(Header(ptype, mode, |body| - |inline|, inline))
      && inline + packet[AIR_HEADER_LEN..] == body
  {
    var inline, packet := Inline(ptype, body), EncodeAir(ptype, mode, body).value;
    var rest := body[|inline|..];
    var raw := packet[..AIR_HEADER_LEN];
    var pad := Padded(inline);
    assert raw == AirMagic() + [AIR_VERSION, ptype, mode, |inline|] + [|rest| / 256, |rest| % 256] + pad;
    assert packet[AIR_HEADER_LEN..] == rest && body == inline + rest;
    HeaderFields(ptype, mode, inline, |rest|, raw);
  }

  lemma HeaderFields(ptype: Byte, mode: Byte, inline: Bytes, length: nat, raw: Bytes)
    requires |inline| <= 2 && length <= MAX_PAYLOAD_BYTES
    requires raw == AirMagic() + [AIR_VERSION, ptype, mode, |inline|] + [length / 256, length % 256] + Padded(inline)
    ensures DecodeHeader(raw) == Some(Header(ptype, mode, length, inline))
  {
    assert raw[0] == 87 && raw[1] == 72 && raw[..2] == AirMagic();
    assert raw[2] == AIR_VERSION && raw[3] == ptype && raw[4] == mode && raw[5] == |inline|;
    assert raw[6] == length / 256 && raw[7] == length % 256;
    assert raw[8] == Padded(inline)[0] && raw[9] == Padded(inline)[1];
    assert raw[8..8 + |inline|] == inline;
    forall i | 8 + |inline| <= i < 10 ensures raw[i] == 0 { assert raw[i] == Padded(inline)[i - 8]; }
  }

  /** A packet comes through with its type and body when, and only when, the body is legal for the mode. */
  lemma PacketRoundTrip(reg: Registry, profile: Mode, ptype: Byte, body: Bytes)
    requires reg.Valid() && profile in reg.modes && profile.id < 256 && EncodeAir(ptype, profile.id, body).Some?
    ensures var got := Accept(reg, profile, EncodeAir(ptype, profile.id, body).value);
      && (got == Some(Packet(ptype, body)) <==> Legal(ptype, body, profile, reg.control))
      && (got == None <==> !Legal(ptype, body, profile, reg.control))
  {
    HeaderRoundTrip(ptype, profile.id, body);
    ResolvesSelf(reg, profile);
    hide DecodeHeader, EncodeAir;
  }

  /**
   Everything but DATA is keyed in the sender's control mode, and accepted only if that has the id of
   the receiver's: stations that hear each other's handshake have the control mode in common.
   */
  lemma SharedControl(from: Registry, to: Registry, profile: Mode, ptype: Byte, body: Bytes)
    requires ptype != PT_DATA && from.control.id < 256 && EncodeAir(ptype, from.control.id, body).Some?
    ensures Accept(to, profile, EncodeAir(ptype, from.control.id, body).value).Some? ==>
      to.control.id == from.control.id == profile.id
  {
    HeaderRoundTrip(ptype, from.control.id, body);
    hide DecodeHeader, EncodeAir;
  }

  lemma ResolvesSelf(reg: Registry, m: Mode)
    requires reg.Valid() && m in reg.modes
    ensures reg.Supports(m.id) && reg.Resolve(m.id) == m
  {
    var i :| 0 <= i < |reg.modes| && reg.modes[i] == m;
  }

  // -- callsigns -----------------------------------------------------------------------

  predicate CallChar(c: char) {
    'A' <= c <= 'Z' || '0' <= c <= '9' || c == '-'
  }

  predicate ValidCall(call: string) {
    1 <= |call| <= 15 && forall i :: 0 <= i < |call| ==> CallChar(call[i])
  }

  function CallBytes(call: string): (b: Option<Bytes>)
    ensures b.Some? <==> ValidCall(call)
    ensures b.Some? ==> |b.value| == 1 + |call| && b.value[0] == |call|
  {
    if ValidCall(call) then Some([|call|] + seq(|call|, i requires 0 <= i < |call| => call[i] as int)) else None
  }

  /** A callsign read at an offset, and where the next field starts. */
  function TakeCall(content: Bytes, offset: nat): Option<(string, nat)> {
    if offset >= |content| then None
    else
      var size := content[offset];
      if !(1 <= size <= 15) || offset + 1 + size > |content| then None
      else
        var call := seq(size, i requires 0 <= i < size => content[offset + 1 + i] as char);
        if ValidCall(call) then Some((call, offset + 1 + size)) else None
  }

  lemma CallRoundTrip(before: Bytes, call: string, after: Bytes)
    requires ValidCall(call)
    ensures TakeCall(before + CallBytes(call).value + after, |before|) == Some((call, |before| + 1 + |call|))
  {
    var content := before + CallBytes(call).value + after;
    var b := CallBytes(call).value;
    forall i | 0 <= i < |call| ensures content[|before| + 1 + i] == call[i] as int {
      assert content[|before| + 1 + i] == b[1 + i];
    }
    assert content[|before|] == |call|;
    assert seq(|call|, i requires 0 <= i < |call| => content[|before| + 1 + i] as char) == call;
  }

  // -- mode lists ------------------------------------------------------------------------

  /** The ids from `from` up that occur in a list, each once, in order. */
  function SortedFrom(ids: Bytes, from: nat): (s: Bytes)
    requires from <= 256
    ensures forall i :: 0 <= i < |s| ==> from <= s[i]
    ensures forall i, j :: 0 <= i < j < |s| ==> s[i] < s[j]
    ensures forall b: Byte :: b in s <==> b in ids && from <= b
    decreases 256 - from
  {
    if from == 256 then [] else (if from in ids then [from] else []) + SortedFrom(ids, from + 1)
  }

  function SortedSet(ids: Bytes): Bytes {
    SortedFrom(ids, 0)
  }

  // -- connection bodies -----------------------------------------------------------------

  function ConnectMagic(): Bytes { [255, 87, 72, 76] }

  const CONNECT_VERSION: Byte := 5

  function Envelope(content: Bytes): (e: Bytes)
    requires |content| < 65536
    ensures |e| == 7 + |content|
  {
    ConnectMagic() + [CONNECT_VERSION, |content| / 256, |content| % 256] + content
  }

  function OpenEnvelope(payload: Bytes): Option<Bytes> {
    if |payload| < 7 || payload[..4] != ConnectMagic() || payload[4] != CONNECT_VERSION
       || Number(payload[5], payload[6]) != |payload| - 7
    then None else Some(payload[7..])
  }

  lemma EnvelopeRoundTrip(content: Bytes)
    requires |content| < 65536
    ensures OpenEnvelope(Envelope(content)) == Some(content)
  {
    var e := Envelope(content);
    assert e[..4] == ConnectMagic();
    assert e[7..] == content;
  }

  /** The fields of a CONNECT, with one mode in `extras`, or of a CONNECT_ACK, with two. */
  datatype Connection = Connection(src: string, dst: string, modes: Bytes, extras: Bytes, session: Byte)

  predicate Encodable(c: Connection) {
    ValidCall(c.src) && ValidCall(c.dst) && |SortedSet(c.modes)| < 256 && |c.extras| <= 2
  }

  function Trailer(session: Byte, modes: Bytes, extras: Bytes): (t: Bytes)
    requires |modes| < 256
    ensures |t| == 2 + |modes| + |extras|
  {
    [session, |modes|] + modes + extras
  }

  function Content(c: Connection): (b: Bytes)
    requires Encodable(c)
    ensures |b| == 4 + |c.src| + |c.dst| + |SortedSet(c.modes)| + |c.extras|
  {
    CallBytes(c.src).value + CallBytes(c.dst).value + Trailer(c.session, SortedSet(c.modes), c.extras)
  }

  /** Fails on a bad callsign, or more modes than the count byte can tell. */
  function EncodeConnection(c: Connection): (b: Option<Bytes>)
    ensures b.Some? <==> Encodable(c)
    ensures b.Some? ==> |b.value| == 11 + |c.src| + |c.dst| + |SortedSet(c.modes)| + |c.extras|
  {
    if Encodable(c) then Some(Envelope(Content(c))) else None
  }

  /** The fields after the two calls; `extra`: how many mode ids follow the list. */
  function DecodeTrailer(src: string, dst: string, c: Bytes, at: nat, extra: nat): Option<Connection> {
    if at + 2 + extra > |c| then None
    else
      var count := c[at + 1];
      if at + 2 + count + extra != |c| then None
      else Some(Connection(src, dst, c[at + 2..at + 2 + count], c[at + 2 + count..], c[at]))
  }

  function DecodeConnection(payload: Bytes, extra: nat): Option<Connection> {
    var content := OpenEnvelope(payload);
    if content.None? then None
    else
      var c := content.value;
      var a := TakeCall(c, 0);
      if a.None? then None
      else
        var b := TakeCall(c, a.value.1);
        if b.None? then None else DecodeTrailer(a.value.0, b.value.0, c, b.value.1, extra)
  }

  /** Calls, sorted distinct modes, chosen modes and session id all come back. */
  lemma ConnectionRoundTrip(c: Connection)
    requires EncodeConnection(c).Some?
    ensures DecodeConnection(EncodeConnection(c).value, |c.extras|) == Some(c.(modes := SortedSet(c.modes)))
  {
    hide *;
    Shapes(c);
    var a, b := CallBytes(c.src).value, CallBytes(c.dst).value;
    var t := Trailer(c.session, SortedSet(c.modes), c.extras);
    var content := Content(c);
    ContentSplits(c, a, b, t);
    EnvelopeRoundTrip(content);
    CallRoundTrip([], c.src, b + t);
    CallRoundTrip(a, c.dst, t);
    TrailerRoundTrip(a + b, c);
    DecodesTo(Envelope(content), content, c.src, |a|, c.dst, |a + b|, |c.extras|);
  }

  lemma Shapes(c: Connection)
    requires EncodeConnection(c).Some?
    ensures ValidCall(c.src) && ValidCall(c.dst) && Encodable(c) && |SortedSet(c.modes)| < 256
    ensures |Content(c)| < 65536 && EncodeConnection(c) == Some(Envelope(Content(c)))
  {
  }

  lemma DecodesTo(payload: Bytes, content: Bytes, src: string, at: nat, dst: string, at': nat, extra: nat)
    requires OpenEnvelope(payload) == Some(content)
    requires TakeCall(content, 0) == Some((src, at)) && TakeCall(content, at) == Some((dst, at'))
    ensures DecodeConnection(payload, extra) == DecodeTrailer(src, dst, content, at', extra)
  {
  }

  lemma ContentSplits(c: Connection, a: Bytes, b: Bytes, t: Bytes)
    requires Encodable(c) && a == CallBytes(c.src).value && b == CallBytes(c.dst).value
    requires t == Trailer(c.session, SortedSet(c.modes), c.extras)
    ensures Content(c) == [] + a + (b + t) && Content(c) == a + b + t
  {
    hide Trailer, SortedSet, CallBytes, ValidCall;
  }

  lemma TrailerRoundTrip(before: Bytes, c: Connection)
    requires |SortedSet(c.modes)| < 256
    ensures DecodeTrailer(c.src, c.dst, before + Trailer(c.session, SortedSet(c.modes), c.extras), |before|, |c.extras|)
         == Some(c.(modes := SortedSet(c.modes)))
  {
    hide SortedSet;
    TrailerFields(before, c.session, SortedSet(c.modes), c.extras);
  }

  lemma TrailerFields(before: Bytes, session: Byte, modes: Bytes, extras: Bytes)
    requires |modes| < 256
    ensures var c, at := before + Trailer(session, modes, extras), |before|;
      && c[at] == session && c[at + 1] == |modes|
      && c[at + 2..at + 2 + |modes|] == modes && c[at + 2 + |modes|..] == extras
  {
  }

  /**
   With the longest calls eighty-seven modes still pass the shape rule for both bodies, eighty-eight only for
   CONNECT.
   */
  lemma ConnectionFits(c: Connection, reg: Registry)
    requires 1 <= |c.extras| <= 2 && EncodeConnection(c).Some?
    ensures var ptype := if |c.extras| == 1 then PT_CONNECT else PT_CONNECT_ACK;
      && (Legal(ptype, EncodeConnection(c).value, reg.control, reg.control)
          <==> |c.src| + |c.dst| + |SortedSet(c.modes)| + |c.extras| <= 119)
      && (|SortedSet(c.modes)| <= 87 ==> Legal(ptype, EncodeConnection(c).value, reg.control, reg.control))
  {
  }

  // -- the frames of the link as packets ---------------------------------------------------

  /** Whether every number of a frame fits its field. */
  ghost predicate Wireable(f: Frame) {
    match f
    case Connect(src, dst, modes, proposed, sid) =>
      ValidCall(src) && ValidCall(dst) && AllBytes(modes) && proposed < 256 && sid < 256
    case ConnectAck(src, dst, modes, accepted, own, sid) =>
      ValidCall(src) && ValidCall(dst) && AllBytes(modes) && accepted < 256 && own < 256 && sid < 256
    case Data(seqNo, _, _, mode) => seqNo < SEQ_MODULO && mode < 256
    case DataAck(answered, expects, received) => answered < SEQ_MODULO && expects < SEQ_MODULO && received < 256
    case _ => true
  }

  predicate AllBytes(ids: seq<nat>) {
    forall i :: 0 <= i < |ids| ==> ids[i] < 256
  }

  function AsBytes(ids: seq<nat>): (b: Bytes)
    requires AllBytes(ids)
    ensures |b| == |ids| && forall i :: 0 <= i < |b| ==> b[i] == ids[i]
  {
    if ids == [] then []
    else
      var last: Byte := ids[|ids| - 1];
      AsBytes(ids[..|ids| - 1]) + [last]
  }

  /** A frame's packet type and body; fails where packing would. */
  function Pack(f: Frame): Option<Packet>
    requires Wireable(f)
  {
    match f
    case Connect(src, dst, modes, proposed, sid) =>
      var b := EncodeConnection(Connection(src, dst, AsBytes(modes), [proposed], sid));
      if b.None? then None else Some(Packet(PT_CONNECT, b.value))
    case ConnectAck(src, dst, modes, accepted, own, sid) =>
      var b := EncodeConnection(Connection(src, dst, AsBytes(modes), [accepted, own], sid));
      if b.None? then None else Some(Packet(PT_CONNECT_ACK, b.value))
    case Disc => Some(Packet(PT_DISC, []))
    case DiscAck => Some(Packet(PT_DISC_ACK, []))
    case Data(seqNo, eof, chunk, _) => Some(Packet(PT_DATA, [seqNo + (if eof then EOF_BIT else 0)] + chunk))
    case DataAck(answered, expects, received) => Some(Packet(PT_DATA_ACK, [answered, expects, received]))
    case FloorReq => Some(Packet(PT_FLOOR_REQ, []))
    case FloorGrant => Some(Packet(PT_FLOOR_GRANT, []))
  }

  /** The frame a packet decoded in a mode stands for. */
  function Parse(p: Packet, mode: Byte): Option<Frame> {
    if p.ptype == PT_CONNECT then
      var c := DecodeConnection(p.body, 1);
      if c.None? || |c.value.extras| != 1 then None
      else Some(Connect(c.value.src, c.value.dst, c.value.modes, c.value.extras[0], c.value.session))
    else if p.ptype == PT_CONNECT_ACK then
      var c := DecodeConnection(p.body, 2);
      if c.None? || |c.value.extras| != 2 then None
      else Some(ConnectAck(c.value.src, c.value.dst, c.value.modes, c.value.extras[0], c.value.extras[1],
          c.value.session))
    else if p.ptype == PT_DISC then Some(Disc)
    else if p.ptype == PT_DISC_ACK then Some(DiscAck)
    else if p.ptype == PT_DATA then
      if p.body == [] then None
      else Some(Data(p.body[0] % EOF_BIT, p.body[0] >= EOF_BIT, p.body[1..], mode))
    else if p.ptype == PT_DATA_ACK then
      if |p.body| != 3 then None
      else Some(DataAck(p.body[0] % EOF_BIT, p.body[1] % EOF_BIT, p.body[2]))
    else if p.ptype == PT_FLOOR_REQ then Some(FloorReq)
    else if p.ptype == PT_FLOOR_GRANT then Some(FloorGrant)
    else None
  }

  /** The frame that arrives: the one sent, its mode list sorted and each mode once. */
  function Arrives(f: Frame): Frame
    requires Wireable(f)
  {
    match f
    case Connect(src, dst, modes, proposed, sid) => Connect(src, dst, SortedSet(AsBytes(modes)), proposed, sid)
    case ConnectAck(src, dst, modes, accepted, own, sid) =>
      ConnectAck(src, dst, SortedSet(AsBytes(modes)), accepted, own, sid)
    case _ => f
  }

  lemma ConnectRoundTrip(f: Frame)
    requires (f.Connect? || f.ConnectAck?) && Wireable(f) && Pack(f).Some?
    ensures Parse(Pack(f).value, 0) == Some(Arrives(f))
  {
    hide EncodeConnection, DecodeConnection, SortedSet, AsBytes;
    if f.Connect? {
      ConnectionRoundTrip(Connection(f.src, f.dst, AsBytes(f.modes), [f.proposed], f.sid));
    } else {
      ConnectionRoundTrip(Connection(f.src, f.dst, AsBytes(f.modes), [f.accepted, f.own], f.sid));
    }
  }

  lemma FrameRoundTrip(f: Frame)
    requires Wireable(f) && Pack(f).Some?
    ensures Parse(Pack(f).value, if f.Data? then f.mode as Byte else 0) == Some(Arrives(f))
  {
    hide EncodeConnection, DecodeConnection, SortedSet, AsBytes;
    if f.Connect? || f.ConnectAck? { ConnectRoundTrip(f); }
  }

  /** Sorting the mode list changes no station's reaction to a CONNECT or a CONNECT_ACK. */
  lemma ArrivesAlike(s: Station, f: Frame)
    requires Wireable(f) && (f.Connect? || f.ConnectAck?)
    ensures f.Connect? ==> Arrives(f).Connect? && LinkStation.Accept(s, Arrives(f)) == LinkStation.Accept(s, f)
    ensures f.ConnectAck? ==> Arrives(f).ConnectAck? && TakeConnectAck(s, Arrives(f)) == TakeConnectAck(s, f)
  {
    SameModes(f.modes);
    var g := Arrives(f);
    if f.Connect? {
      AnswersAlike(s, f, g);
      AcceptsAlike(s, f, g);
    } else {
      AcksAlike(s, f, g);
    }
  }

  lemma AnswersAlike(s: Station, f: Frame, g: Frame)
    requires f.Connect? && g.Connect? && g == Connect(f.src, f.dst, g.modes, f.proposed, f.sid)
    requires forall m: nat :: m in g.modes <==> m in f.modes
    ensures Answer(s, g) == Answer(s, f)
  {
    hide Registry.Supports, Registry.Resolve, Registry.Ids;
  }

  lemma AcceptsAlike(s: Station, f: Frame, g: Frame)
    requires f.Connect? && g.Connect? && g == Connect(f.src, f.dst, g.modes, f.proposed, f.sid)
    requires forall m: nat :: m in g.modes <==> m in f.modes
    requires Answer(s, g) == Answer(s, f)
    ensures LinkStation.Accept(s, g) == LinkStation.Accept(s, f)
  {
    hide Answer, Registry.Resolve;
    assert LinkStation.Accept(s, g).st.peerModes == LinkStation.Accept(s, f).st.peerModes;
  }

  lemma AcksAlike(s: Station, f: Frame, g: Frame)
    requires f.ConnectAck? && g.ConnectAck? && g == ConnectAck(f.src, f.dst, g.modes, f.accepted, f.own, f.sid)
    requires forall m: nat :: m in g.modes <==> m in f.modes
    ensures TakeConnectAck(s, g) == TakeConnectAck(s, f)
  {
    hide Registry.Resolve;
    assert TakeConnectAck(s, g).peerModes == TakeConnectAck(s, f).peerModes;
  }

  lemma SameModes(modes: seq<nat>)
    requires AllBytes(modes)
    ensures forall m: nat :: m in SortedSet(AsBytes(modes)) <==> m in modes
  {
    var b := AsBytes(modes);
    forall m: nat ensures m in SortedSet(b) <==> m in modes {
      if m in modes { var i :| 0 <= i < |modes| && modes[i] == m; assert b[i] == m; }
    }
  }

  /** From frame to air and back: every frame that can be packed and fits its mode is heard as it was sent. */
  lemma AirRoundTrip(reg: Registry, profile: Mode, f: Frame)
    requires reg.Valid() && profile in reg.modes && profile.id < 256 && Wireable(f) && Pack(f).Some?
    requires if f.Data? then f.mode == profile.id else profile == reg.control
    requires Legal(Pack(f).value.ptype, Pack(f).value.body, profile, reg.control)
    requires EncodeAir(Pack(f).value.ptype, profile.id, Pack(f).value.body).Some?
    ensures var p := Pack(f).value;
      var got := Accept(reg, profile, EncodeAir(p.ptype, profile.id, p.body).value);
      got.Some? && Parse(got.value, if f.Data? then f.mode as Byte else 0) == Some(Arrives(f))
  {
    PacketRoundTrip(reg, profile, Pack(f).value.ptype, Pack(f).value.body);
    FrameRoundTrip(f);
  }

  // -- frames byte by byte -------------------------------------------------------------------

  /** The last chunk of a message, and the ACK of it, as they go on the air. */
  lemma DataImage()
    ensures Pack(Data(5, true, [65, 66], 9)) == Some(Packet(PT_DATA, [133, 65, 66]))
    ensures EncodeAir(PT_DATA, 9, [133, 65, 66]) == Some([87, 72, 3, 5, 9, 1, 0, 2, 133, 0, 65, 66])
    ensures Pack(DataAck(5, 6, 9)) == Some(Packet(PT_DATA_ACK, [5, 6, 9]))
    ensures EncodeAir(PT_DATA_ACK, 1, [5, 6, 9]) == Some([87, 72, 3, 6, 1, 2, 0, 1, 5, 6, 9])
  {
    var body: Bytes := [133, 65, 66];
    assert [5 + EOF_BIT] + [65, 66] == body;
    assert Inline(PT_DATA, body) == [133] && body[1..] == [65, 66] && Padded([133]) == [133, 0];
    assert AirMagic() + [AIR_VERSION, PT_DATA, 9, 1] + [0, 2] + [133, 0] + [65, 66]
        == [87, 72, 3, 5, 9, 1, 0, 2, 133, 0, 65, 66];
    var ack: Bytes := [5, 6, 9];
    assert Inline(PT_DATA_ACK, ack) == [5, 6] && ack[2..] == [9] && Padded([5, 6]) == [5, 6];
    assert AirMagic() + [AIR_VERSION, PT_DATA_ACK, 1, 2] + [0, 1] + [5, 6] + [9]
        == [87, 72, 3, 6, 1, 2, 0, 1, 5, 6, 9];
  }

  /** A CONNECT from A to B that offers modes 2 and 1, proposes 2 and is under id 77. */
  lemma ConnectImage()
    ensures AllBytes([2, 1]) && Pack(Connect("A", "B", [2, 1], 2, 77))
         == Some(Packet(PT_CONNECT, [255, 87, 72, 76, 5, 0, 9, 1, 65, 1, 66, 77, 2, 1, 2, 2]))
  {
    OneCall('A');
    OneCall('B');
    TwoModes();
    var c := Connection("A", "B", AsBytes([2, 1]), [2], 77);
    assert c.src == ['A'] && c.dst == ['B'] && ValidCall(c.src) && ValidCall(c.dst);
    hide SortedFrom, AsBytes, CallBytes, ValidCall;
    ContentImage(c);
  }

  lemma ContentImage(c: Connection)
    requires CallBytes(c.src) == Some([1, 65]) && CallBytes(c.dst) == Some([1, 66]) && c.extras == [2]
    requires c.session == 77 && SortedSet(c.modes) == [1, 2]
    ensures EncodeConnection(c) == Some([255, 87, 72, 76, 5, 0, 9, 1, 65, 1, 66, 77, 2, 1, 2, 2])
  {
    hide SortedSet, CallBytes, ValidCall;
    assert Trailer(77, [1, 2], [2]) == [77, 2, 1, 2, 2];
    var content: Bytes := [1, 65, 1, 66, 77, 2, 1, 2, 2];
    assert Content(c) == content;
    assert Envelope(content) == [255, 87, 72, 76, 5, 0, 9, 1, 65, 1, 66, 77, 2, 1, 2, 2];
  }

  lemma OneCall(c: char)
    requires 'A' <= c <= 'Z'
    ensures CallBytes([c]) == Some([1, c as int])
  {
    var call := [c];
    assert ValidCall(call) && |call| == 1;
    assert CallBytes(call).value == [1, c as int];
  }

  lemma TwoModes()
    ensures AllBytes([2, 1]) && SortedSet(AsBytes([2, 1])) == [1, 2]
  {
    var ids: seq<nat> := [2, 1];
    assert AllBytes(ids);
    var b := AsBytes(ids);
    assert b == [2, 1];
    hide *;
    OneAndTwo(b);
  }

  lemma OneAndTwo(b: Bytes)
    requires b == [2, 1]
    ensures SortedSet(b) == [1, 2]
  {
    assert 1 in b && 2 in b;
    SkipsTo(b, 3, 256);
    assert SortedFrom(b, 256) == [];
    ListsNext(b, 2, []);
    ListsNext(b, 1, [2]);
    assert [1] + [2] == [1, 2] && [2] + [] == [2];
    SkipsTo(b, 0, 1);
    hide SortedFrom;
  }

  lemma ListsNext(ids: Bytes, from: nat, rest: Bytes)
    requires from < 256 && from in ids && SortedFrom(ids, from + 1) == rest
    ensures SortedFrom(ids, from) == [from] + rest
  {
  }

  /** Ids not in the list are passed over. */
  lemma {:induction false} SkipsTo(ids: Bytes, from: nat, to: nat)
    requires from <= to <= 256 && forall x: Byte :: from <= x < to ==> x !in ids
    ensures SortedFrom(ids, from) == SortedFrom(ids, to)
    decreases 256 - from
  {
    if from < to {
      assert from !in ids;
      SkipsTo(ids, from + 1, to);
    }
  }
}
