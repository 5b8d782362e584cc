# A verified model of the whale modem

This Dafny project models the logic of the whale modem that can be separated from its waveforms, and
proves properties of that model for every input, every run or every reachable state. It has five parts.

**The half-duplex link.** `LinkStation` is one station as a step relation: its protocol state, what may
happen to it (`Can`) and what that does (`Do`, `React`). `LinkNet` joins two stations by two lossy
first-in-first-out packet queues. `LinkSession`, `LinkLanes`, `LinkRuns` and `LinkMessages` build the
invariant of every run: session identity, the sequence numbers and acknowledgements of both directions,
the floor, the negotiated modes, and the messages. `LinkTerms` adds that whatever is negotiated is known at
both ends, and `LinkCalls` that nothing said in a session is queued ahead of a CONNECT of it. `LinkHistory`
keeps, for every session id of a run, each station as it was when last in that session, and with
`LinkOrphans` carries what was delivered past the moment an end leaves; `LinkRungs` and `LinkParted` do so
for a chunk cut again after that, by the rungs its ACKs name. `LinkTheorems` states what follows.
`LinkRecut` says exactly when re-cutting a chunk is harmless, `LinkLadder` exactly which ladders and message
lengths leave room for a harmful one, and `LinkCounter` gives complete runs showing what happens without
each hypothesis. `LinkMemory` follows the modes a station remembers from one session to the next, and
`LinkDelivers` shows by runs that any two stations can connect, pass any message either way, and part.
`Link` is the link object itself: its methods
update fields inside retry loops, and each is proved to do nothing but a list of `LinkStation` acts
(`LinkActs`), none of which carries on after a failed call; `LinkObject.ObjectsRun` says that two objects
whose acts are those of a run are where that run leads, so the theorems about runs are theorems about this
code. `LinkScript` says what each blocking call makes of a script of arrivals: how it ends, what it leaves,
what it has keyed by then; the methods are proved to do exactly that, every packet they take being heard in
its order, and what the calls promise is proved of these functions. `Codec` is the wire format. `Service` is
the worker loop and its queues, every turn of it exactly what `ServiceDesk` says.

**The trellis decoders.** `Convolution` and `Viterbi`: the K=7 rate-1/3 code, its free distance of fifteen,
the decoder's optimality and the seven errors it always undoes. `Accumulator` and `RepeatAccumulate`: the
max-log forward-backward pass and the iterative decoder around it. All over exact reals.

**Streaming.** `AudioHistory` (the ring against an unbounded recording), `OfdmSearch` (incremental
acquisition and the receive stream), `Decimator` and `ImpulseNoise`: none shows how its audio was cut.

**The sweep.** `SweepResult` (the RESULT frame), `SweepNet` (the two-party exchange) and `Sweep` (its objects).

**The decode scheduler.** `Scheduler`: budget and fairness.

`Common` and `Arithmetic` hold what several parts share.

## What the link theorems assume, and why

* **Air.** A keyed frame is at once in the peer's packet queue or lost; it may then wait there for any
  time and may still vanish. Nothing overtakes. `connect` and `listen_once` empty the caller's own queue,
  as the source does. `LinkCounter.CrossedSessions` is a run in which listening does not: both stations
  end up connected under different session ids.
* **Fresh session ids.** Two calls never use the same id. Ids are numbers that only grow here; the code
  draws a random byte other than zero and compares ids only for equality.
* **Failed calls end the session.** After a floor request or a chunk is given up on, the only thing the
  station does in that session is leave it, as `whale/service.py:313-316` makes it; `Link` never does
  anything else. Only `SessionIsolation` and `ConnectsFresh` of `LinkTheorems` do without this.
  `LinkCounter.FloorTwice` is a run without it in which both stations hold the floor.
* **Exact cuts.** What is said of the bytes of a session holds while no chunk was cut again in it whose
  older, larger cut the other end had accepted and was still there, or of which a copy was still queued. A
  chronicle records the sessions in which this happened as `blurred`, and as `parted` those in which the
  other end had accepted the old cut and was already gone. A parted session is no worse than any other: no ACK
  of the old cut can confirm the new one (`LinkParted.SentIsHeard`). The comment in the source holds that
  the receiver cannot depend on the old cut; it does when that cut was accepted and only its ACKs were lost.
  `LinkRecut.RecutExact` proves that a re-cut is harmless if and only if no copy of the old cut was accepted
  or is queued, or the receiver can take nothing more in the session: it is in it only to leave, or out of it
  with no CONNECT of the sender's call left to answer. `LinkRecut.Misdeliver` gives for every other re-cut a
  continuation in which the receiver delivers as many bytes too many as the old cut was longer, and
  `LinkCounter.RecutRepeats` one such run from power-up. A caller can keep clear of it, and
  `LinkLadder.LaddersExact` says exactly how: no run of two stations with messages up to a length can misdeliver
  if and only if neither ladder has two neighbouring rungs, both known to the other end, of which the lower
  carries less than the upper and less than that length. Then no session is blurred or parted at all
  (`LinkLadder.ShortStaysExact`). Sequence counts, the floor and the handshake need no such assumption.
* **One control mode.** What is said of modes is said of stations whose control modes have the same id. A
  handshake frame is keyed in the sender's control mode and accepted only in the receiver's, so stations
  that complete a handshake have it in common (`Codec.SharedControl`).

## Where the code and what is written about it differ

* `LINK.md:193-194` describes adaptation by counting unanswered and first-attempt chunks. The code steps
  down after a configured number of failures in a row and otherwise by delivery statistics; the model
  follows the code, with the statistics' verdict as an input.
* `LINK.md:100` and `LINK.md:113` say that mode ids are sent in preference order. The code sorts them.
* A session's stream begins with whatever the last session left queued: only `disconnect` and `abort`
  clear the outbound queue, and a session the peer ended leaves it alone. A session carries nothing over
  exactly when the outbound queue is empty as it begins (`Service.ModemService.Dial`, `Answer`);
  `Service.CarriesOver` is a script in which bytes written in one session go out in the next.
* A flush that fails during a `disconnect` command is raised outside the worker loop's handler and ends the
  worker; `Service.ModemService.DrainCommands` returns this as `Crashed`.

## Model

| member | source | states |
|---|---|---|
| LinkStation.Registry.Resolve | whale/waveform.py:148-149 | an id the ladder has gives that mode, any other the control mode |
| LinkStation.StepsTo | whale/waveform.py:151-160 | a mode steps to another exactly when that is the next one up or down the ladder; at an end there is none |
| LinkStation.CutsFull | whale/link.py:1026-1027 | the cut is the bytes at the offset; every chunk but the last is as long as the mode carries, and it is last exactly when the rest fits |
| LinkStation.SeqAheadIs | whale/link_protocol.py:99-100 | the one distance below 128 that leads from the second number to the first, modulo 128 |
| LinkTerms.AnswerOffers | whale/link.py:873-890 | for each direction the answer settles on a mode both ends have; which of them, LinkMemory says |
| LinkTerms.TermsRun | whale/link.py:778-907 | in every run of stations with one control mode: every mode agreed on or stepped to is one both ends have |
| LinkSession.RunKeeps | whale/link.py:673-715 | session identity, the handshake's open obligations and which frames can still be queued hold in every run |
| LinkSession.AcceptKeeps | whale/link.py:855-907 | accepting a call keeps them |
| LinkSession.AckTakenKeeps | whale/link.py:804-835 | taking any copy of the CONNECT_ACK keeps them |
| LinkLanes.AcceptsInHand | whale/link.py:1211-1239 | a DATA frame has the number waited for exactly when it is the chunk its sender still has in hand, not yet accepted; any other is the chunk accepted last |
| LinkLanes.DataLane | whale/link.py:1211-1253 | taking it in or dropping it, and answering it, keep counts, queued frames and the floor in order |
| LinkLanes.AckLane | whale/link.py:1099-1131 | an ACK naming the chunk in flight can only answer that chunk; the invariant is kept although numbers wrap |
| LinkLanes.GrantLane | whale/link.py:993-1004 | granting the floor keeps it |
| LinkLanes.GrantedLane | whale/link.py:959-980 | being granted it keeps it: the peer has given it up and no grant of ours is on its way |
| LinkLanes.RecutLane | whale/link.py:1028-1034 | a re-cut keeps it, its byte part only while no copy of the old cut was accepted or is queued |
| LinkRuns.MoveFull | whale/link.py:911-1146 | every move of either station or of the air keeps the whole invariant |
| LinkRuns.RunFull | whale/link.py:911-1146 | it holds in every run from power-up in which failed calls end their session |
| LinkMessages.LedgerMove | whale/link.py:1008-1050 | what was given to send, cut, accepted, reassembled and delivered keep telling one story |
| LinkHistory.TrueRun | whale/link.py:911-1253 | in every run, of every session id: what each end had sent, had acknowledged, accepted and delivered when last in it fits what the other had, whoever left first |
| LinkHistory.ApartMoves | whale/link.py:1211-1253 | a station whose peer has left still accepts only the chunks that peer cut, and takes only ACKs of chunks that peer accepted |
| LinkHistory.ApartBegins | whale/link.py:855-907 | a station that comes into a session the other end has already left begins it with nothing accepted or acknowledged |
| LinkCalls.OrderedMove | whale/link.py:778-853 | every move keeps each queue so that no data or floor frame of a session is ahead of a CONNECT of it |
| LinkRungs.TunedCuts | whale/link.py:1137-1145 | once a chunk is cut again, every ACK the old cut can still bring names a rung above the one in use |
| LinkRungs.TunedAck | whale/link.py:1119-1131 | so an ACK that confirms the chunk in hand answers that very chunk, and what is acknowledged stays a prefix of what was accepted |
| LinkRungs.TunedHears | whale/link.py:1211-1253 | taking DATA in or dropping it, and answering it in its own mode, keeps this |
| LinkParted.KnownRun | whale/link.py:1053-1146 | it holds in every run from power-up of stations with one control mode, of every session, whoever left it first |
| LinkParted.SentIsHeard | whale/link.py:1008-1050 | in every session not blurred, every chunk acknowledged was accepted, in order, and every message whose send returned was delivered |
| LinkMemory.RemembersFastest | whale/link.py:1148-1157 | after any acts the mode remembered towards a peer is the fastest, still on the ladder, of all its ACKs have ever proved there, and the control mode if there is none |
| LinkMemory.ListenerResumes | whale/link.py:881-907 | in every run a listener begins a session sending in that mode if the caller offers it, and otherwise in the control mode |
| LinkMemory.CallerResumes | whale/link.py:790-826 | in every run a caller begins a session, with the station it called, sending in that mode if the listener has it, and otherwise in the listener's control mode |
| LinkDelivers.WholeSession | whale/link.py:778-1293 | for any two stations with one control mode and any two messages, a run: connected, though the first CONNECT_ACK be lost, one message there, the floor asked for and granted, the other back, and parted; just these were given, sent and heard |
| LinkDelivers.Sends | whale/link.py:1008-1050 | from rest any message gets through in one run, whoever has the floor, and leaves both ends at rest |
| LinkDelivers.ChunkGoesAgain | whale/link.py:1211-1253 | a chunk whose ACK is lost is acknowledged again and not taken in again |
| LinkDelivers.Connects | whale/link.py:673-907 | a CONNECT retried after a lost answer is answered again by the station already in the session, and connects |
| LinkDelivers.Parts | whale/link.py:1255-1293 | a DISC heard is answered, and the answer lets its sender go |
| LinkTheorems.FloorExclusion | whale/link.py:911-1004 | two connected stations are never both ISS, and never both inside a send |
| LinkTheorems.ExactlyOnce | whale/link.py:1053-1146 | for every session of every run: acknowledged <= accepted <= acknowledged + 1 in unbounded counts; where it is not blurred, the chunks acknowledged are the first of those accepted, also after either end has left; and while cuts are exact those accepted are the sender's own in order |
| LinkTheorems.NothingAlone | whale/link.py:855-907 | an end whose peer was never in the session has accepted and delivered nothing in it |
| LinkTheorems.SessionIsolation | whale/link.py:687-715 | connected stations are in one session as caller and listener, and every data or floor frame still queued is of that session |
| LinkTheorems.HandshakeAgreement | whale/link.py:804-835 | whichever copy of the answer arrived, both ends agreed the same two modes, and until a grant is keyed in the session the caller is ISS and the listener IRS |
| LinkTheorems.ConnectsFresh | whale/link.py:893-907 | in every run, the move that brings a station into a session leaves its counters zero, its buffers empty, the caller ISS or the listener IRS, and its profiles those of the agreed modes, by direction |
| LinkTheorems.ProfilesMatch | whale/link.py:819-826 | in every run both ends resolve the agreed modes to the same ids, each has the mode the other transmits in |
| LinkTheorems.StreamPrefix | whale/link.py:1161-1253 | for every session of every run that is not blurred: messages delivered are the first of those given to send, byte for byte, those whose send returned are among them, and they are all once every send has returned; a chunk cut again for a receiver that had it and left takes nothing from this |
| LinkRecut.RecutExact | whale/link.py:1028-1034 | a re-cut can never make the receiver deliver other bytes than were given if and only if no copy of the old cut was accepted or is queued, or the receiver can take nothing more in the session, whether it is in it or about to answer its call again |
| LinkRecut.Misdeliver | whale/link.py:1140-1145 | otherwise a continuation in which every chunk is acknowledged and the receiver has delivered too many bytes, by the difference of the two cuts |
| LinkLadder.LaddersExact | whale/link.py:1023-1034 | of two ladders and a length: no run from power-up with messages up to it delivers anything but what was given to send if and only if neither ladder has neighbouring rungs both ends know of which the lower carries less than the upper and less than the length |
| LinkLadder.NeverCutsAgain | whale/link.py:1140-1145 | with such ladders no chunk is ever cut again, and both directions deliver only what was given |
| LinkLadder.CutsAgain | whale/link.py:1137-1145 | with any other ladder a complete run from power-up, with one message of one byte more than the lower rung carries, misdelivers |
| LinkLadder.ShortStaysExact | whale/link.py:1023-1034 | stations with such ladders never cut a chunk again, so none of their sessions is blurred or parted |
| LinkCounter.RecutRepeats | whale/link.py:1023-1050 | a complete run: one message sent, two delivered |
| LinkCounter.FloorTwice | whale/link.py:911-957 | a complete run without the session-ending rule: both stations ISS |
| LinkCounter.CrossedSessions | whale/link.py:855-860 | a complete run without the queue drain: both connected, under different ids |
| LinkActs.NetPerforms | whale/link.py:397-405 | in every run each station goes through exactly the performance of its own acts |
| LinkObject.ObjectsRun | whale/service.py:313-316 | two objects whose acts are those of a run are where it leads, and no failed call in it carries on |
| LinkActs.StepMoves | whale/link_adaptation.py:134-142 | a step is taken exactly when the ladder has a rung the way asked whose mode the peer has, and then to that rung |
| LinkActs.CarriesOn | whale/link.py:1023-1050 | an acknowledged chunk extends what was carried by exactly its bytes; the last one completes the message |
| LinkObject.Link.AnswerDuplicateConnect | whale/link.py:673-715 | re-answers a retry of its own session with the stored frame, and nothing else |
| LinkObject.Link.WaitPacket | whale/link.py:654-671 | returns the first wanted packet or stops at silence; of those before, retried CONNECTs are re-answered, once each, and the rest dropped |
| LinkObject.Link.Connect | whale/link.py:778-853 | the call is keyed once a wait, until a wait brings the answer to this very call or the retries are spent (CallRun); connected exactly as that answer says, or idle after a parting DISC; every packet taken is heard |
| LinkScript.CallsPatiently | whale/link.py:795-853 | the first answer to this call is taken, none is made up, and the call fails only after every retry went unanswered |
| LinkObject.Link.ListenOnce | whale/link.py:855-907 | connected exactly as the first CONNECT says that comes once the queue is drained, if it is for this station, or still listening; every packet taken is heard |
| LinkObject.Link.AcquireFloor | whale/link.py:911-957 | ends as FloorRun of the script: granted with the first chunk cut, given up, or the peer gone; requests and answers keyed are its; keys no DATA; messages taken meanwhile are both delivered and waiting |
| LinkScript.AsksPatiently | whale/link.py:911-957 | given up only after as many requests in a row as allowed that nothing came of, DATA taken meanwhile starting the count again |
| LinkScript.GrantTaken | whale/link.py:940-957 | a grant that is the first thing to come of a request ends the asking with one request |
| LinkScript.StaleFloor | whale/link.py:717-745 | halfway through a message a stale peer is given up and nothing is asked |
| LinkObject.Link.TakePeerDataForFloor | whale/link.py:959-980 | one packet: granted, data taken and answered, peer gone, or silence |
| LinkObject.Link.HandleFloorReq | whale/link.py:993-1004 | IRS and one grant keyed |
| LinkObject.Link.SendMessage | whale/link.py:1008-1050 | does exactly what MessageRun says of the script: outcome, fields, packets taken and keyings; sent means the chunks acknowledged carry exactly the data, in order, the last marked; keyings bounded by retries x rungs x chunk positions |
| LinkScript.SmoothMessage | whale/link.py:1008-1050 | where the floor is held or granted at once and every chunk's first answer is its confirming ACK, the message is sent, with one keying a chunk |
| LinkScript.MessageFails | whale/link.py:1008-1050 | a message fails only for one of three reasons: as many requests for the floor in a row as allowed came to nothing, as many keyings of one chunk as allowed were each followed by a wait without an ACK, or the peer is gone |
| LinkObject.Link.SendChunks | whale/link.py:1023-1050 | the chunk loop, by the measure (bytes left, rung), is SendRun of the script |
| LinkScript.SendsStubbornly | whale/link.py:1023-1050 | no chunk is given up before its allowed keyings, and a message cut short by a DISC has heard one |
| LinkScript.StepsBetween | whale/link.py:1036-1047 | between two chunks the mode moves one rung the way the statistics lean, and not at all if ARQ has just moved it |
| LinkObject.Link.SendChunkWithArq | whale/link.py:1053-1146 | is ArqRun of the script: result, mode, failures counted, packets taken and keyings; acknowledged with its evidence recorded, stepped down strictly below for a re-cut, given up, or peer gone |
| LinkScript.ArqPersists | whale/link.py:1067-1146 | given up after exactly the allowed keyings, each wait ended by silence or a floor request; acknowledged by the confirming ACK that ended the last wait, and not before the others lapsed |
| LinkScript.ArqLadder | whale/link.py:1137-1145 | the mode only steps down, not before the configured failures in a row, and then whenever there is a rung |
| LinkObject.Link.AwaitAck | whale/link.py:1083-1136 | is AwaitRun of the script: only an ACK for this number, one ahead, in this mode confirms |
| LinkScript.AwaitsOne | whale/link.py:1083-1136 | a wait ends with the first confirming ACK, DISC, floor request or silence, and says which it was; everything else is passed over |
| LinkActs.KeepsFastest | whale/link.py:1148-1157 | the mode remembered towards a peer is the fastest still offered of the one before and the one just proved |
| LinkObject.Link.AdaptiveStep | whale/link_adaptation.py:125-132 | one rung the way asked exactly when that can be stepped to, the failure count cleared exactly then |
| LinkObject.Link.MaybeAdapt | whale/link_adaptation.py:30-44 | between chunks at most one step, only when allowed and only the way the statistics lean |
| LinkObject.Link.RecvMessage | whale/link.py:1161-1209 | a waiting message first, else exactly what ReceiveRun makes of the script: message, fields, packets taken and answers keyed; every packet taken is heard once, in order |
| LinkScript.ReceivesAttentively | whale/link.py:1161-1253 | every DATA and floor request is answered once, in order, DATA with its own number and mode; the call ends with the packet that completes a message, and without one only on silence, an expired clock or a DISC |
| LinkScript.StaleEnds | whale/link.py:717-745 | an inactivity clock that has run out ends the call and the session |
| LinkObject.Link.HandleData | whale/link.py:1211-1253 | as the specification function, the completed message handed up at once |
| LinkObject.Link.Disconnect | whale/link.py:1275-1293 | DISC is keyed once a wait until one is answered or the retries are spent (PartRun); out of the session whatever is heard, at once if there was none |
| LinkScript.PartsPatiently | whale/link.py:1275-1293 | acknowledged exactly if one of the allowed waits brings a DISC or DISC_ACK, the first that does being the last |
| Codec.HeaderRoundTrip | whale/link_protocol.py:57-81 | the header gives back type, mode, length and inline bytes |
| Codec.PacketRoundTrip | whale/link_receiver.py:249-275 | a packet passes header and shape checks with its type and body if and only if the body is legal for the mode |
| Codec.SharedControl | whale/link_protocol.py:84-96 | whatever but DATA is accepted from another station was keyed in a control mode of the same id as the receiver's |
| Codec.CallRoundTrip | whale/link_protocol.py:120-137 | a callsign is read back at any offset |
| Codec.SortedFrom | whale/link_protocol.py:152-152 | each id once, ascending |
| Codec.ConnectionRoundTrip | whale/link_protocol.py:150-192 | calls, sorted distinct modes, chosen modes and session id come back |
| Codec.ConnectionFits | whale/link_protocol.py:90-91 | exactly when a connection body passes the 128-byte rule; eighty-seven modes always do |
| Codec.FrameRoundTrip | whale/link_protocol.py:57-192 | every link frame that can be packed parses back to itself, mode lists sorted |
| Codec.ArrivesAlike | whale/link.py:866-890 | sorting the mode list changes no reaction |
| Codec.AirRoundTrip | whale/link_receiver.py:249-275 | from frame to air and back |
| Codec.DataImage | whale/link_protocol.py:57-81 | a last DATA chunk and its ACK, header and body, byte by byte |
| Codec.ConnectImage | whale/link_protocol.py:150-170 | a CONNECT body byte by byte, its mode list sorted |
| Service.ModemService.Write | whale/service.py:175-180 | accepted exactly when connected or empty |
| Service.ModemService.OnLinkEvent | whale/service.py:113-121 | a completed message is placed at once and counted |
| Service.ModemService.BeginSession | whale/service.py:237-249 | inbound and the count cleared; outbound kept |
| Service.ModemService.Dial | whale/service.py:202-209 | places the call the script answers (ServiceDesk.Dials); a session begun by calling carries over what outbound holds, so nothing exactly when it is empty |
| Service.ModemService.Answer | whale/service.py:302-306 | and so does one begun by answering the next CONNECT for this station |
| Service.ModemService.SendOutbound | whale/service.py:261-270 | one send as ServiceDesk.Sends; the drained event exactly when the send succeeded and nothing is queued |
| Service.ModemService.FlushOutbound | whale/service.py:251-259 | with the session up everything queued goes out as one message, else it is dropped; only what is written meanwhile is left |
| Service.ModemService.ServiceConnected | whale/service.py:272-291 | sends all that is queued, or else receives (ServiceDesk.Serves); keeps placed-once and stream accounting, or reports a failed call |
| Service.ModemService.Receive | whale/service.py:287-291 | what recv_message brings is placed unless it was already: none is placed twice, none is left out |
| Service.ModemService.DrainCommands | whale/service.py:188-217 | the commands are carried out in order up to the first that ends the worker (ServiceDesk.CarriesOutAll); every one keeps the accounting; only a failing flush escapes; an abort keys no DATA |
| Service.ModemService.RunOnce | whale/service.py:293-316 | commands, then a send or a receive or a listen, exactly as ServiceDesk.TakesTurn; the accounting holds at every turn |
| Service.ModemService.Run | whale/service.py:293-321 | as many turns as ServiceDesk.Runs of the script; the accounting holds or a failed call is left to end; a graceful stop leaves no session |
| ServiceDesk.WrittenIsSent | whale/service.py:272-286 | where the floor comes and every chunk is acknowledged, one turn sends all that was queued as one message, and reports it drained exactly if nothing was written meanwhile |
| ServiceDesk.FailureEnds | whale/service.py:313-316 | a turn whose link call fails leaves no session |
| ServiceDesk.ClosingKeepsInbound | whale/service.py:208-235 | hanging up and aborting take back nothing placed for the reader; an abort gives the link nothing to send |
| Service.EndToEnd | whale/service.py:113-121 | for two services whose links have acted as in a run, until either begins another session: bytes placed are a prefix of those carried over and written at the other end, all but those dropped or waiting once every send has returned |
| Service.CarriesOver | whale/service.py:227-249 | a script: bytes waiting when the peer ends a session are sent in the next one |
| Convolution.Encode | scripts/screen_hr0_params.py:38-48 | the register loop computes the code |
| Convolution.Window | scripts/screen_hr0_params.py:43-47 | the register holds the last seven inputs |
| Convolution.Terminated | scripts/screen_hr0_params.py:100-100 | state zero at the end if and only if the last six inputs were zero |
| Convolution.Taps | scripts/screen_hr0_params.py:44-46 | which of the last seven inputs each generator adds up |
| Convolution.Linear | scripts/screen_hr0_params.py:38-48 | where two inputs' codes differ depends on where the inputs differ |
| Convolution.Distance | scripts/screen_hr0_params.py:38-48 | different terminated inputs differ in at least fifteen coded bits |
| Viterbi.Advance | scripts/screen_hr0_params.py:58-72 | one trellis step: each state takes its cheaper predecessor |
| Viterbi.Decode | scripts/screen_hr0_params.py:51-78 | fails on a ragged input; otherwise the input ending in six zeros whose codeword agrees best with the soft values among all of that length, and of several such the one with a zero where it last differs from each |
| Viterbi.CostDisagrees | scripts/screen_hr0_params.py:58-72 | a path costs its codeword's correlation with the soft values, negated |
| Viterbi.CheapestAgrees | scripts/screen_hr0_params.py:58-78 | a path from state zero to state zero is cheapest if and only if its codeword agrees best |
| Viterbi.Weighs | scripts/screen_hr0_params.py:67-69 | raising one soft value raises the agreement of the codewords with a zero there by as much and lowers that of the others |
| Viterbi.NoneCheaper | scripts/screen_hr0_params.py:58-72 | no path to a state beats its metric |
| Viterbi.TraceAttains | scripts/screen_hr0_params.py:73-78 | the links spell out a path with that metric, never reading an entry that was not written |
| Viterbi.TraceCheapest | scripts/screen_hr0_params.py:73-78 | so the traced path is cheapest |
| Viterbi.TracePreferred | scripts/screen_hr0_params.py:66-78 | of all cheapest paths to a state the traced one has a zero where it last differs from any other |
| Viterbi.Corrects | scripts/screen_hr0_params.py:51-78 | up to seven flipped signs are undone |
| Accumulator.ForwardPass | scripts/prototype_hr0_ra_ofdm.py:39-45 | alpha is the best score of a beginning, up to one shift a step |
| Accumulator.BackwardPass | scripts/prototype_hr0_ra_ofdm.py:46-50 | beta is the best score of an ending, up to one shift a step |
| Accumulator.Siso | scripts/prototype_hr0_ra_ofdm.py:36-57 | the clipped difference of two maxima; the shifts cancel and no infinity survives |
| Accumulator.SisoMeans | scripts/prototype_hr0_ra_ofdm.py:51-56 | best over all inputs with a zero at i less best with a one, both without prior i |
| Accumulator.SignKept | scripts/prototype_hr0_ra_ofdm.py:36-57 | channel ratios that favour a codeword and priors not against it give strictly favouring outputs |
| Accumulator.Overrules | scripts/prototype_hr0_ra_ofdm.py:36-57 | where every channel value speaks for its output by p and no prior against its input by more than half of that, every output speaks for its input by p less that much, up to the clip |
| Accumulator.PriorWeighs | scripts/prototype_hr0_ra_ofdm.py:42-49 | a prior counts half in a score, for or against its input |
| Accumulator.ChannelWeighs | scripts/prototype_hr0_ra_ofdm.py:42-49 | a channel value counts half, for or against the output at its position |
| Accumulator.ClipNearest | scripts/prototype_hr0_ra_ofdm.py:57-57 | clipping takes the nearest value of magnitude at most forty |
| RepeatAccumulate.Inverse | scripts/prototype_hr0_ra_ofdm.py:62-62 | sorting a permutation inverts it both ways |
| RepeatAccumulate.Decode | scripts/prototype_hr0_ra_ofdm.py:60-70 | the loop computes the iterated specification |
| RepeatAccumulate.TurnMeans | scripts/prototype_hr0_ra_ofdm.py:65-69 | an iteration with no inverse permutation in it: a posterior is the bit's own ratio and what every position repeating it says, a prior that without its own |
| RepeatAccumulate.StaysOnTrack | scripts/prototype_hr0_ra_ofdm.py:65-69 | every message pass keeps the signs |
| RepeatAccumulate.RoundTrip | scripts/prototype_hr0_ra_ofdm.py:60-70 | ratios with the code's signs decode to the message, for every permutation and iteration count |
| RepeatAccumulate.Corrects | scripts/prototype_hr0_ra_ofdm.py:60-70 | where every parity ratio speaks for its bit by at least twice what any systematic ratio speaks against its own, that being below 240, the message is decoded from the second iteration on, however many systematic ratios are wrong |
| AudioHistory.Ring.Append | whale/streaming.py:14-26 | the ring's content becomes the specified one: restarted on a gap, the newest kept |
| AudioHistory.Ring.Write | whale/streaming.py:22-24 | two slice copies put every sample in its place and touch nothing still wanted |
| AudioHistory.Ring.Discard | whale/streaming.py:28-29 | forgets up to a position, never past the end |
| AudioHistory.Ring.Read | whale/streaming.py:31-39 | exactly the samples asked for, or a failure outside the retained history |
| AudioHistory.RetainsRecording | whale/streaming.py:7-29 | after any operations the ring is the newest part of the unbounded recording, at its positions, within capacity |
| AudioHistory.KeepsWhatFits | whale/streaming.py:14-26 | where nothing is discarded, as much of the recording is kept as there is room for |
| AudioHistory.AppendKeeps | whale/streaming.py:14-26 | after an append just the newest positions are kept, of it and, if it goes on, of what was kept before |
| AudioHistory.DiscardForgets | whale/streaming.py:28-29 | discarding forgets just what lies before the position |
| AudioHistory.ReadsRecording | whale/streaming.py:31-39 | so every read answers the recording |
| OfdmSearch.OfdmSearch.Update | whale/streaming.py:54-82 | the loop computes the specified search |
| OfdmSearch.OfdmSearch.SearchWindow | whale/streaming.py:61-82 | one window: read with guard, merged with the first near candidate if stronger |
| OfdmSearch.StepFinds | whale/streaming.py:61-76 | the window holds the audio around the block at the cursor, and a confident peak is kept at the place in the audio where it was seen |
| OfdmSearch.MergeKeeps | whale/streaming.py:71-80 | a find, or one at least as strong near by it, is kept; one given up has given way to a stronger one near by |
| OfdmSearch.SweepKeeps | whale/streaming.py:60-82 | nothing found is lost in a sweep but to something stronger |
| OfdmSearch.SweepTwice | whale/streaming.py:60-82 | searching what has come and then the rest equals searching all |
| OfdmSearch.BatchingDoesNotShow | whale/streaming.py:54-82 | with the start fixed, any cutting gives the same candidates, cursor and windows |
| OfdmSearch.NoneSkippedNoneTwice | whale/streaming.py:54-82 | no retained start is skipped and none searched twice, whatever is discarded |
| OfdmSearch.ReceiveStream.Append | whale/streaming.py:140-146 | a new generation or a gap drops every search with the audio |
| OfdmSearch.ReceiveStream.Poll | whale/streaming.py:148-161 | one search a preamble, begun where the history starts; no search reaches back over a break |
| Decimator.ReceiveDecimator.Process | whale/rx_audio.py:47-54 | puts out exactly what the piece adds to the downsampled whole |
| Decimator.ReceiveDecimator.Filter | whale/rx_audio.py:51-51 | the delay line carried over makes every output the full convolution |
| Decimator.StepConvolves | whale/rx_audio.py:51-51 | one sample through a delay line owing what it should |
| Decimator.SplitsAt | whale/rx_audio.py:52-54 | the phase carried over picks the samples at multiples of four |
| Decimator.Downsample | whale/rx_audio.py:57-59 | the whole at once |
| ImpulseNoise.Channel.Process | whale/channel.py:572-600 | audio plus the noise its absolute position determines, and the state its position determines |
| ImpulseNoise.Channel.Draw | whale/channel.py:576-583 | draws exactly the events that start in the piece |
| ImpulseNoise.Channel.Inject | whale/channel.py:584-590 | lays the listed bursts over the piece |
| ImpulseNoise.HitsOnce | whale/channel.py:584-590 | an event is one burst of the shape at its own amplitude, and silence before and after |
| ImpulseNoise.LastingPending | whale/channel.py:591-592 | dropping finished events leaves exactly the pending ones |
| ImpulseNoise.PendingTotal | whale/channel.py:586-592 | and dropped events add nothing later |
| ImpulseNoise.CutsDoNotShow | whale/channel.py:572-600 | any cutting gives the same samples |
| ImpulseNoise.SameState | whale/channel.py:572-593 | and the same pending events, next event and draws |
| SweepResult.RoundTrip | whale/sweep.py:332-361 | a result comes back exactly if and only if counts fit a byte, figures the limit and sequence numbers the bitmap |
| SweepResult.Reports | whale/sweep.py:332-361 | what comes back in every other case |
| SweepResult.Image | whale/sweep.py:332-345 | one RESULT frame byte by byte |
| SweepResult.RangeMeans | whale/sweep.py:303-307 | the figures are the least, the mean and the greatest estimate to the nearest tenth, in that order |
| SweepResult.TenthsNearest | whale/sweep.py:332-350 | the nearest integer, of two the even one |
| SweepResult.MissedMakesUp | whale/sweep.py:297-301 | decoded, nearly decoded and missed make up what was expected |
| SweepResult.BitmapRoundTrip | whale/sweep.py:337-340 | the bitmap holds exactly the numbers below thirty-two |
| SweepNet.SweepAgrees | whale/sweep.py:757-961 | in every run, with other sweeps in between: equal RESULT frames a mode, one listener row, collected rows say what it says, a report of no frames as one of all |
| SweepNet.MeasuresAll | whale/sweep.py:757-961 | a sweep of which nothing is lost measures all its modes, every frame of every burst counted, a row for each at both ends |
| SweepNet.CountsEach | whale/sweep.py:546-591 | while a burst is listened for, each of its frames is counted once for what it was, its estimate kept, and nothing else is counted |
| SweepNet.AskAgain | whale/sweep.py:933-961 | a question asked again is answered the same and recorded no second time |
| SweepNet.AnnouncedAgain | whale/sweep.py:429-452 | an announcement repeated once a frame has been counted takes nothing from the count |
| SweepNet.HeldAlike | whale/sweep.py:463-487 | what was counted is reported alike while the burst is listened for and once that is over |
| SweepNet.StaleUnanswered | whale/sweep.py:476-487 | a question about a tally neither armed nor held, or held too long, is not answered and changes nothing |
| SweepNet.UnknownUnanswered | whale/sweep.py:916-931 | a mode the listener does not have is neither armed nor answered for |
| SweepNet.WholeReport | whale/sweep.py:332-361 | and a burst of up to thirty-two that came through whole is reported so |
| SweepNet.ServeKeeps | whale/sweep.py:916-961 | serving keeps a reported mode from being armed again and its tally as reported |
| SweepNet.DecodeKeeps | whale/sweep.py:559-591 | so does tallying, a near miss or an expiry at any moment |
| SweepNet.AirKeeps | whale/sweep.py:783-819 | no announcement is ever sent after a question about its mode |
| Sweep.SweepReceiver.Arm | whale/sweep.py:429-452 | a repeated announcement keeps frames already counted |
| Sweep.SweepReceiver.CheckExpiry | whale/sweep.py:454-461 | an expired window is disarmed, its tally held |
| Sweep.SweepReceiver.DisarmLocked | whale/sweep.py:468-474 | nothing armed, the tally held |
| Sweep.SweepReceiver.TallyFor | whale/sweep.py:476-487 | armed, or held and not stale |
| Sweep.SweepReceiver.NoteNearMiss | whale/sweep.py:546-557 | counts only for the armed mode |
| Sweep.SweepReceiver.Accept | whale/sweep.py:559-591 | a frame counts only for what is armed, as decoded or as a near miss |
| Sweep.SweepEngine.ServeAnnounce | whale/sweep.py:916-931 | arms and answers, or ignores an unknown mode |
| Sweep.SweepEngine.ServeAsk | whale/sweep.py:933-961 | stops counting, records once, reports the tally |
| Sweep.SweepEngine.Announces | whale/sweep.py:783-801 | one announcement a wait until one brings the matching READY, three at most |
| Sweep.SweepEngine.Collect | whale/sweep.py:803-819 | one question a wait until one brings a result for this mode, three at most |
| Sweep.SweepEngine.Measure | whale/sweep.py:757-781 | announcements, then burst, then questions, in that order and no other, and exactly the row the answers make |
| Sweep.TriesInsistently | whale/sweep.py:684-819 | the first answer that counts ends the tries, and without one all are used |
| Scheduler.BudgetedCandidates | whale/link_receiver.py:312-341 | the loop computes the specified plan; every decoder left out has a last attempt to be overdue by |
| Scheduler.WithinBudget | whale/link_receiver.py:330-333 | planned decoders that are in only because they fit never exceed the budget |
| Scheduler.LeftDoNotFit | whale/link_receiver.py:328-336 | whoever is left out has not decoded anything lately and does not fit with those taken |
| Scheduler.CheapestFirst | whale/link_receiver.py:325-333 | and costs at least as much as any taken because it fits |
| Scheduler.SortedStable | whale/link_receiver.py:325-327 | decoders of equal estimate stay in the order given |
| Scheduler.EstimateScales | whale/link_receiver.py:92-95 | an estimate is in proportion to the audio, all spent so far for as much audio |
| Scheduler.ExtraIsOne | whale/link_receiver.py:337-340 | at most one overdue pick on top |
| Scheduler.ExtraIsMostOverdue | whale/link_receiver.py:335-340 | the first of the most overdue, and there is one whenever any is due |
| Scheduler.DueKeepsDuty | whale/link_receiver.py:335-340 | a decoder is due once another attempt keeps it within a fifth of the time since its last |
| Scheduler.Fair | whale/link_receiver.py:312-341 | a due decoder is run within as many polls as there are decoders left out |
| Scheduler.PlansFair | whale/link_receiver.py:312-341 | over any polls with the estimates standing, a due decoder that does not fit is in one of as many plans as there are such decoders |
| Scheduler.PickRecorded | whale/link_receiver.py:335-340 | the plan's overdue decoder is the one the fairness argument follows |
| Scheduler.DecodeCost.Add | whale/link_receiver.py:84-90 | totals, the dearest attempt and the last attempt |

## Left out

* Threads, sleeps, wall clocks and PTT: timeouts are steps that may happen at any time, or entries of a script the methods run against.
* Waveforms, acquisition, error-correcting libraries and air times: acquisition is a given function, and whether a frame decodes is up to the air.
* Floating-point rounding: decoders, filters and noise are over exact reals; in the sweep only the rounding of signal-to-noise figures to tenths is modelled.
* Delivery statistics behind mode choice: which way they lean after a chunk is an input.
* Air that delays a frame beyond the peer's queue drain: see `LinkCounter.CrossedSessions` for what then fails.
* Bounded queues and their back-pressure, and the environment hooks that drop frames, force a mode or script steps.
* `service_while_idle`, which the service never calls.
* Malformed frames from a peer that passed the header check: CONNECT bodies that do not parse, DATA_ACK bodies of the wrong length, empty DATA bodies. `Codec` covers their formats; the link model starts from parsed frames.
* Profile confirmation by the decode thread: a DATA frame's mode is taken when the frame is, so an ACK always names the mode of the DATA it answers.
* The hand-over of a sweep and its report tables; the sweep back is the same exchange with the roles exchanged and another id.
* Wait budgets, deadlines and payload bytes of burst frames: a burst frame is good or it is not.
* `OfdmReceiver`: which candidates are demodulated rests on measured acquisition error.
* Callsign changes while the service runs, and its subscribers.
- LinkObject.Link.Connect: the drained queue is the run of packets at the head of the script up to and with the next silence.
- LinkObject.Link.MaybeAdapt: which way the statistics lean is an input.
- OfdmSearch.ReceiveStream.Poll: models the search behind a decode call, not the demodulation after it.
- Scheduler.Fair: takes estimates and recent successes as fixed over the polls considered, and so does Scheduler.PlansFair.
- RepeatAccumulate.RoundTrip: says nothing of ratios of the wrong sign; RepeatAccumulate.Corrects does, of systematic ones.
