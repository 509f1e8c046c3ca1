# A verified model of the HDLC daemon

The HDLC daemon connects TCP clients to devices on serial ports.  This project models
its link layer and the bookkeeping that decides whether the link runs, in Dafny 4.11,
and proves what they promise.  `dafny verify dfyconfig.toml` checks everything.

Every stateful part exists twice: as a class whose methods update fields in place, the
way the C++ code does, and as functions on values.  Each method is proved to do what the
function says; the theorems are about the functions, over every input or every run.

- **Frame check sequence** (`Lfsr`, `Fcs16`): the table-driven CRC of RFC 1662,
  Appendix C.2, against the bit-by-bit definition, and what it detects.
- **Framing** (`HdlcFrame`, `FrameGenerator`, `FrameParser`, `Framing`, with `Mealy`
  for machines that read a stream): serialising, stuffing (RFC 1662, section 4.2), the
  incremental parser as a byte automaton, round trips, the size limit, resynchronisation.
- **Liveness and baud rate search** (`AliveState`).
- **Stop-and-wait link entity** (`Link` on values, `ProtocolState` as a class;
  `LinkInvariants`, `LinkTheorems`; `LinkHistory` and `LinkOffer` for what peer and
  clients did, folded from the events alone; `LinkFrames`, `LinkWakeup`, `LinkGap`,
  `LinkPoll`, `LinkTimer`, `LinkStream`; `LinkRuns` for concrete runs).  Clients that send
  from inside the entity's own query for payload re-enter it; a script says what they do.
- **Link, peer and lossy lines** (`Arq`, `ArqTheorems`, `ArqProgress`, `ArqPrompt`, with
  `Stutter` for sequences with repetitions): end-to-end delivery, exactly when it is
  exactly once, that a session can always go on, and exactly when promptly.
- **Locks, status messages, subscriptions** (`Port` on values, `SerialPort` as classes;
  `PortTheorems`, `PortBelief`, `PortDelivery`), and **port and link entity together**
  (`PortLink`, `PortRun`).

## What the code does that one might not expect

Each is kept in the model as it is in the code, with the exact condition where it matters.

- An acknowledgement may arrive while none is awaited, because the timer, an RNR or an
  SREJ ended the wait (src/SerialPort/HDLC/ProtocolState.cpp:211-264 and 308-309; the
  timer does so even if the frame cannot be sent again at once).  It advances the send
  number but leaves the payload queued, and the peer accepts it again.  Delivery is exactly
  once if and only if this never happens (`ExactlyOnceIffNoOrphan`, `DuplicatePossible`,
  `DuplicateByFlowControl`).
- The flag for a fresh RNR condition survives the end of that condition.  If it is then
  noticed while an I-frame is outstanding, polling replaces the retransmission timer
  (lines 317-345), and if the frame or its acknowledgement is lost the link never sends
  it again by itself (`StepCoupling`, `StallReachable`, `StallPersists`).  The peer can
  free it, by RNR for example, so no session is beyond recovery (`SessionsCanProgress`);
  a peer that sends neither RNR nor SREJ cannot free it once the frame is lost, and not
  even while the timer still watches the frame but the flag is set
  (`SessionsProgressPromptlyIff`, `StuckReachable`).
- REPROBING can end in PROBING without the clients being told.  Until the next update
  they believe in a live device; a status message is wrong about the device if and only
  if that has happened (`ClientsAreTold`, `LossUnnoticed`).
- After a valid frame the closing flag does not open the next frame; after an invalid or
  short one it does.
- CMDR is coded as 0x83, which the parser reads as SNRM; the payloads of TEST and CMDR
  are parsed but never generated (`OnWireIffFaithful`).
- An I-frame with an empty payload is neither acknowledged nor counted
  (`EmptyUnnoticed`), yet the link sends such a frame if a client hands over an empty
  payload.  A peer that runs this same entity never acknowledges it; the peer of the
  end-to-end theorems does.
- Numbers to request with SREJ are stored without reduction modulo 8, up to 14; the
  generator masks them (`GapIsMissing`).
- A due RR is passed over by the transmit opportunity that notices a fresh RNR
  condition.  It waits for the next opportunity, and this is the only way in which
  anything that could be sent waits beside a free slot (`NoLostWakeup`, `RRPassedOver`).
- The payload of a UI frame is offered to the clients without looking at the counters
  (line 420); for the other frames the callers look first.

## Model

| member | source | states |
|---|---|---|
| `ArqTheorems.AtLeastOnceInOrder` | src/SerialPort/HDLC/ProtocolState.cpp:192-264 | For every session against a peer that accepts only the expected N(S) and never sends REJ, over any loss in both directions: what the clients handed over, folded from their calls, = popped ++ queue, and what the peer accepted is the popped payloads, each one or more times in a row and in order, then perhaps copies of the head, with a map that says which acceptance copies which payload; so nothing is popped that was not accepted. |
| `ArqTheorems.ExactlyOnceIffNoOrphan` | src/SerialPort/HDLC/ProtocolState.cpp:202-210 | In every such session the number of acceptances is the number of payloads plus the number of acknowledgements that arrived while none was awaited; delivery is exactly once if and only if there was no such orphan. |
| `ArqTheorems.ExactlyOnceInOrder` | src/SerialPort/HDLC/ProtocolState.cpp:294-312 | With a peer that uses neither RNR nor SREJ, if every timer expiry finds the link alive, the slot free and neither probe nor SREJ pending, every payload that the clients handed over and that left the queue is accepted exactly once and in order. |
| `ArqTheorems.DuplicatePossible` | src/SerialPort/HDLC/ProtocolState.cpp:308-309 | The condition on the timer is needed: from every idle point of a session, an expiry while the slot is taken and a late acknowledgement make the peer accept one payload twice, without RNR and SREJ. |
| `ArqTheorems.DuplicateByFlowControl` | src/SerialPort/HDLC/ProtocolState.cpp:211-264 | So are those on the peer: from every idle point, an RNR or an SREJ with the number of the payload that crosses it on the line has the same effect, without any timer. |
| `ArqTheorems.IdleReachable` | src/SerialPort/HDLC/ProtocolState.cpp:82-135 | Such an idle point is reached from a new link. |
| `ArqTheorems.PromptSessionsAreExact` | src/SerialPort/HDLC/ProtocolState.cpp:294-312 | Prompt sessions never orphan an acknowledgement, and a frame in flight is always awaited. |
| `ArqProgress.SessionsCanProgress` | src/SerialPort/HDLC/ProtocolState.cpp:192-379 | Progress: after every session, with any losses, stops of the flow, stalls and orphans, some continuation without losses and without help of the clients pops everything the clients handed over, and the peer has accepted it all in order. |
| `ArqProgress.HeadCanBeDelivered` | src/SerialPort/HDLC/ProtocolState.cpp:192-379 | From every state of a running session some such continuation takes the head off the queue. |
| `ArqPrompts.SessionsProgressPromptlyIff` | src/SerialPort/HDLC/ProtocolState.cpp:294-345 | Exact condition: after every session with a queued payload, a continuation without losses, in which the peer sends neither RNR nor SREJ and the timer fires only if it can resend at once, takes the head off the queue if and only if the session is not stuck: the head awaited, no copy of it under way or accepted, the timer not set to resend it or about to be taken for polling, and no RNR or SREJ under way that ends the wait. |
| `ArqPrompts.StuckPersists` | src/SerialPort/HDLC/ProtocolState.cpp:317-345 | A stuck session stays stuck and pops nothing under all prompt acts, losses and clients included. |
| `ArqPrompts.StuckReachable` | src/SerialPort/HDLC/ProtocolState.cpp:317-345 | From every idle point of a session eight acts lead to a stuck one. |
| `ArqPrompts.PromptSessionsNeverStick` | src/SerialPort/HDLC/ProtocolState.cpp:294-312 | Sessions that were prompt all along are never stuck, so they can go on promptly. |
| `Arq.HappenKeeps` | src/SerialPort/HDLC/ProtocolState.cpp:192-264 | Session invariant, kept by every act: the numbers in play are two neighbours modulo 8, old copies precede new ones on the line, acknowledgements never go back, so numbers never alias. |
| `Arq.AckSession` | src/SerialPort/HDLC/ProtocolState.cpp:202-230 | After a frame from the peer the link has caught up with the peer either by popping the head or by an orphaned acknowledgement. |
| `Arq.DisciplinedSession` | src/SerialPort/HDLC/ProtocolState.cpp:294-312 | A transmit opportunity puts at most one further copy of the head on the line, with the number the session expects. |
| `LinkOffers.NothingLost` | src/SerialPort/HDLC/ProtocolState.cpp:106-114 | In every run from a new link, with stops, restarts and any frames from the peer: the reliable payloads the clients handed over, folded from their calls and their answers to queries, = popped ++ queue; the unreliable ones = UI payloads sent ++ queue; and the I-frames ever sent repeat the popped payloads in order, each at least once, then perhaps the head. |
| `LinkOffers.StepAccepts` | src/SerialPort/HDLC/ProtocolState.cpp:106-124 | One event accepts the payload that comes with it and the offers among the actions that clients take in its queries, of each kind, in this order, and nothing else. |
| `LinkOffers.AskedIff` | src/SerialPort/HDLC/ProtocolState.cpp:348-364 | Clients are asked exactly in a free slot on a live link with nothing more urgent to send and either no reliable payload or a stopped flow, and each query takes at least one of their actions. |
| `LinkHistories.LinkFollowsHistory` | src/SerialPort/HDLC/ProtocolState.cpp:65-271 | In every run, with any starts and stops: whether the link runs, the number it expects, the number of its next I-frame, whether the peer stopped the flow, and its liveness are those folded from the events alone. |
| `LinkHistories.FramesAreCurrent` | src/SerialPort/HDLC/ProtocolState.cpp:385-405 | Every frame of a run: one per event at most; an I-frame carries the number the peer asked for last and, like every RR, reports the number after the last valid I-frame with payload since the start, or 0; nothing but TEST goes out unless the history says the device is alive; no I-frame while the peer has stopped the flow, no poll while it has not. |
| `LinkHistories.StartsInOrder` | src/SerialPort/HDLC/ProtocolState.cpp:65-88 | After any start of any link, as long as the I-frames with payload are numbered consecutively from 0, nothing is requested again, whatever else happens. |
| `LinkHistories.RejectedIsResent` | src/SerialPort/HDLC/ProtocolState.cpp:231-247 | On a REJ with a free slot and a queued payload the head goes out at once with the number before the one in the REJ, unless another number is outstanding; then no I-frame goes out. |
| `LinkFrames.StepSpeaks` | src/SerialPort/HDLC/ProtocolState.cpp:273-379 | Every event: the frame handed over, if any, is by priority the right one (TEST, SREJ, I, RR, UI) with the right address, poll bit and numbers, and what it settles is settled and nothing else. |
| `LinkFrames.ProbeTimeoutProbes` | src/SerialPort/HDLC/AliveState.cpp:203-210 | A probe timeout on a running link that is not FOUND hands over a TEST frame if the slot is free and leaves the probe pending otherwise; in FOUND nothing is sent. |
| `LinkFrames.StartsAfresh` | src/SerialPort/HDLC/ProtocolState.cpp:65-88 | A start leaves nothing of the past but the queues: both numbers 0, no flow condition, nothing due, awaited or requested, no timer, probing, and the first probe handed over. |
| `LinkFrames.StopForgets` | src/SerialPort/HDLC/ProtocolState.cpp:90-96 | A stop leaves the same, with the slot free and nothing sent. |
| `LinkPolls.PollingGoesOn` | src/SerialPort/HDLC/ProtocolState.cpp:314-345 | In every run: while the peer has stopped the flow the timer runs for polling, or the stop is not noticed yet, or an RR that polls is due. |
| `LinkPolls.PollIsSent` | src/SerialPort/HDLC/ProtocolState.cpp:332-344 | When the polling timer expires on a stopped flow with a free slot and nothing more urgent, an RR with the poll bit goes out and the timer runs again. |
| `LinkPolls.StepDue` | src/SerialPort/HDLC/ProtocolState.cpp:187-187 | A report is due from a valid I-frame with payload, or the expiry of the polling timer on a stopped flow, until an I-frame or an RR is handed over or the link starts or stops. |
| `LinkWakeups.NoLostWakeup` | src/SerialPort/HDLC/ProtocolState.cpp:273-379 | After every event of every run, with a free slot on a live link: no probe, SREJ or unreliable payload pending, the reliable queue empty or blocked by an outstanding frame or by RNR, and an RR due if and only if the last transmit opportunity found it due together with an unnoticed RNR condition; also through re-entrant queries. |
| `LinkWakeups.RRPassedOver` | src/SerialPort/HDLC/ProtocolState.cpp:314-345 | A run from a new link after which a due RR waits although the slot is free and the link alive. |
| `LinkWakeups.StepQuiesces` | src/SerialPort/HDLC/ProtocolState.cpp:126-135 | One event of any kind leaves nothing but perhaps a due RR waiting in a free slot. |
| `LinkWakeups.StepAcks` | src/SerialPort/HDLC/ProtocolState.cpp:126-135 | After one event an RR is due in a free slot on a live link if and only if the opportunity of the event passed it over or, if the event brought none, it was so before. |
| `LinkWakeups.OpportunityAcks` | src/SerialPort/HDLC/ProtocolState.cpp:314-335 | One opportunity, with everything that re-enters it, leaves a due RR waiting in a free slot exactly if it was due when a fresh RNR condition was noticed. |
| `LinkTheorems.StepDisciplined` | src/SerialPort/HDLC/ProtocolState.cpp:273-379 | One event hands over at most one frame, only into a free slot, only TEST while not alive, only the numbered head of the queue as I-frame and then the timer is armed; numbers, pops and gap are fixed before the opportunity. |
| `LinkTheorems.StoppedSendsNothing` | src/SerialPort/HDLC/ProtocolState.cpp:65-96 | A link that is not running after an event sent nothing in it. |
| `LinkGaps.GapIsMissing` | src/SerialPort/HDLC/ProtocolState.cpp:179-185 | The list of frames to request has (N(S) - expected) mod 8 entries, 1 to 7 of them; modulo 8 they are expected, ..., N(S) - 1, all different; stored values reach 14 at most. |
| `LinkGaps.StepGap` | src/SerialPort/HDLC/ProtocolState.cpp:173-190 | A valid information frame with payload and an unexpected N(S) makes the list from the expected number to that N(S); start and stop clear it; no other event touches it; the log counts the SREJs sent before. |
| `LinkGaps.RequestsFollowTheGap` | src/SerialPort/HDLC/ProtocolState.cpp:408-416 | In every run the SREJs sent since the last unexpected frame or restart, counted by a fold over the run, are a prefix, in order, of the list of frames missing then, and the rest of it is what is still to be requested. |
| `LinkGaps.EmptyUnnoticed` | src/SerialPort/HDLC/ProtocolState.cpp:173-190 | A valid information frame moves the expected number, makes an acknowledgement due and renews the list exactly as its N(S) asks if it has payload; without payload it does none of this. |
| `LinkInvariants.StepKeeps` | src/SerialPort/HDLC/ProtocolState.cpp:65-379 | Sender invariant, kept by every event whatever the peer sends: an outstanding frame has its payload on the queue, so popping is safe; sequence numbers below 8; a stopped link rests; conservation of payloads and SREJs. |
| `LinkInvariants.OpportunityKeeps` | src/SerialPort/HDLC/ProtocolState.cpp:273-379 | The same through a transmit opportunity with nested queries and sends. |
| `LinkTimer.StepCoupling` | src/SerialPort/HDLC/ProtocolState.cpp:314-345 | Exact condition: an event leaves "an I-frame is awaited" and "the retransmission timer is armed" equivalent if and only if it does not enter the branch for a fresh RNR condition while a frame is outstanding. |
| `LinkTimer.TimerWatchesFrame` | src/SerialPort/HDLC/ProtocolState.cpp:294-312 | In every run without RNR the two are equivalent. |
| `LinkTimer.StallPersists` | src/SerialPort/HDLC/ProtocolState.cpp:317-345 | Where the condition fails the link stalls: no run of events of clients, timers and driver and of other frames of the peer, however long, makes it send an information frame again. |
| `LinkTimer.StallStep` | src/SerialPort/HDLC/ProtocolState.cpp:192-264 | Exactly these events end the stall: RNR, I or RR with the acknowledgement of the outstanding frame, REJ or SREJ with its number, start and stop. |
| `LinkTimer.StallReachable` | src/SerialPort/HDLC/ProtocolState.cpp:211-218 | A run of nine events that ends stalled. |
| `LinkStreams.ReceiveBytesAppend` | src/SerialPort/HDLC/ProtocolState.cpp:137-144 | Feeding the entity two pieces of a byte stream one after the other is feeding it their concatenation, for all its state and everything it sends. |
| `LinkStreams.FramingIsTransparent` | src/SerialPort/HDLC/ProtocolState.cpp:137-271 | Fed the encoded byte stream of any frames that fit, the entity reacts as to the frames themselves. |
| `Framing.StreamRoundTrip` | src/SerialPort/HDLC/FrameParser.cpp:53-110 | Any list of generated frames within the size limit, concatenated and cut into any chunks, is delivered by a reset parser frame by frame, all marked valid, and leaves the parser reset. |
| `Framing.ArrivalsAt` | src/SerialPort/HDLC/FrameParser.cpp:166-167 | Each delivery is the image of its own frame. |
| `Framing.OnWireIffFaithful` | src/SerialPort/HDLC/FrameGenerator.cpp:41-122 | What the other side reads is the frame itself if and only if its numbers are below 8, unused fields are empty and it is not CMDR. |
| `Framing.ParseEncoded` | src/SerialPort/HDLC/FrameParser.cpp:156-159 | Between frames an encoded frame is delivered if and only if its payload has at most 1018 bytes; otherwise nothing is delivered. |
| `Framing.ChunkingIrrelevant` | src/SerialPort/HDLC/FrameParser.cpp:53-110 | For every parser state, one call per chunk does what one call with everything does. |
| `Framing.Resynchronises` | src/SerialPort/HDLC/FrameParser.cpp:62-95 | After any noise, whatever becomes of the first encoded frame, all the following ones that fit are delivered valid and intact. |
| `Framing.FrameSettles` | src/SerialPort/HDLC/FrameParser.cpp:80-95 | From every parser state an encoded frame leaves the parser between frames. |
| `Framing.DeliveriesSound` | src/SerialPort/HDLC/FrameParser.cpp:112-168 | On any input every delivery has a legal size, three-bit numbers, and its address and payload where the line has them; if marked valid it passed the FCS and has an even number of one bits. |
| `Framing.NothingFromNothing` | src/SerialPort/HDLC/FrameParser.cpp:53-168 | Of any bytes on the line: every frame delivered as valid was there, complete, stuffed and delimited, with an accepted check sequence and a legal size. |
| `Framing.ValidIffGenuine` | src/SerialPort/HDLC/FrameParser.cpp:112-168 | A buffer between two flags is delivered as valid if and only if it is the stuffed image of an accepted body of legal size. |
| `Framing.AbortedFrame` | src/SerialPort/HDLC/FrameParser.cpp:124-128 | An escape byte right before the closing flag: the frame is handed over as it came, marked invalid, or dropped if its size is not legal. |
| `Framing.ControlBytes` | src/SerialPort/HDLC/FrameParser.cpp:170-281 | Which control bytes stand for which frame type. |
| `Framing.EscapeFlipsBit` | src/SerialPort/HDLC/FrameGenerator.cpp:147-155 | The two special bytes, and no others, are stuffed as RFC 1662 says. |
| `Framing.BurstMarkedInvalid` | src/SerialPort/HDLC/FrameParser.cpp:161-167 | A line image whose body was hit by a burst of at most 16 bits is delivered once, marked invalid. |
| `Framing.ParseLine` | src/SerialPort/HDLC/FrameParser.cpp:61-168 | Between frames a stuffed body of legal size is delivered exactly once, marked by its FCS; any other size vanishes. |
| `Framing.UnescapedEscaped` | src/SerialPort/HDLC/FrameGenerator.cpp:131-158 | Unstuffing inverts stuffing, whatever follows. |
| `Framing.BodyDecodes` | src/SerialPort/HDLC/FrameParser.cpp:170-281 | Decoding a generated body yields the frame as it is on the wire. |
| `FrameParsers.ParseAppend` | src/SerialPort/HDLC/FrameParser.cpp:53-59 | The parser automaton on a concatenation is the automaton on the parts. |
| `FrameParsers.ParseBody` | src/SerialPort/HDLC/FrameParser.cpp:96-108 | Bytes without a flag are collected, or the frame is given up once 2048 bytes are exceeded, which clears the start flag. |
| `FrameParsers.ParseFrame` | src/SerialPort/HDLC/FrameParser.cpp:80-95 | A body and its closing flag are judged, or dropped with the start flag kept if they exceed 2048 bytes. |
| `FrameParsers.FrameParser.constructor` | src/SerialPort/HDLC/FrameParser.cpp:41-43 | A new parser hunts for a flag. |
| `FrameParsers.FrameParser.Reset` | src/SerialPort/HDLC/FrameParser.cpp:45-51 | Back to hunting; what was delivered stays delivered. |
| `FrameParsers.FrameParser.AddReceivedRawBytes` | src/SerialPort/HDLC/FrameParser.cpp:53-59 | The chunk-wise loop ends and does what the byte automaton does on the whole input. |
| `FrameParsers.FrameParser.AddChunk` | src/SerialPort/HDLC/FrameParser.cpp:61-110 | One pass consumes 1 to all bytes and does what the automaton does on them. |
| `FrameParsers.FrameParser.SeekStart` | src/SerialPort/HDLC/FrameParser.cpp:62-79 | Without a start flag: everything up to and including the first flag is skipped. |
| `FrameParsers.FrameParser.EndFrame` | src/SerialPort/HDLC/FrameParser.cpp:80-95 | With a start flag and a flag in the input: the bytes before it complete the frame, which is judged. |
| `FrameParsers.FrameParser.CollectBytes` | src/SerialPort/HDLC/FrameParser.cpp:96-108 | With a start flag and no flag in the input: everything is collected, or the frame is given up. |
| `FrameParsers.FrameParser.CloseFrame` | src/SerialPort/HDLC/FrameParser.cpp:86-94 | A completed buffer is delivered or dropped; only a valid frame uses up its closing flag. |
| `FrameParsers.FrameParser.Unstuff` | src/SerialPort/HDLC/FrameParser.cpp:130-149 | The in-place loop computes the recursive unstuffing and finds every illegal sequence. |
| `FrameParsers.FrameParser.RemoveEscapeCharacters` | src/SerialPort/HDLC/FrameParser.cpp:112-168 | Junk is dropped without delivery, everything else is delivered once with the right mark. |
| `FrameParsers.FrameParser.ControlField` | src/SerialPort/HDLC/FrameParser.cpp:177-271 | The type and the payload flag of every control byte. |
| `FrameParsers.FrameParser.DeserializeFrame` | src/SerialPort/HDLC/FrameParser.cpp:170-281 | The decoded frame, field by field. |
| `FrameGenerator.SerializeFrame` | src/SerialPort/HDLC/FrameGenerator.cpp:41-122 | Flag, address, control, payload for I and UI only, FCS, flag. |
| `FrameGenerator.ApplyFCS` | src/SerialPort/HDLC/FrameGenerator.cpp:124-129 | Appends the complemented FCS, low byte first. |
| `FrameGenerator.WithFcsAccepted` | src/SerialPort/HDLC/FrameGenerator.cpp:124-129 | What carries that FCS passes the check of the receiver. |
| `FrameGenerator.EscapeFrame` | src/SerialPort/HDLC/FrameGenerator.cpp:131-158 | Stuffs everything between the flags; the memory reserved is exactly what is used. |
| `FrameGenerator.EscapedLength` | src/SerialPort/HDLC/FrameGenerator.cpp:133-142 | Stuffing adds one byte for each flag or escape byte, so the first loop counts right. |
| `Fcs16.Pppfcs16` | src/SerialPort/HDLC/FCS16.cpp:74-80 | The table-driven loop computes, for every start value and message, the bit-by-bit reflected CRC with polynomial 0x8408 (RFC 1662, Appendix C.2). |
| `Fcs16.NextFcs` | src/SerialPort/HDLC/FCS16.cpp:74-80 | One table step is eight bit steps. |
| `Fcs16.TableStep` | src/SerialPort/HDLC/FCS16.cpp:39-72 | The same as a fact about the table: all 256 entries are right. |
| `Fcs16.AcceptsIffFcs` | src/SerialPort/HDLC/FCS16.cpp:74-80 | After any message exactly one pair of bytes is accepted: the complemented FCS, low byte first; in particular the residue is always 0xf0b8. |
| `Fcs16.BurstDetected` | src/SerialPort/HDLC/FrameParser.cpp:161-167 | No two accepted bodies of equal length differ only within a burst of at most 16 bits, wherever it starts and however long the message is. |
| `Fcs16.AcceptedBodyIsEven` | src/SerialPort/HDLC/FrameParser.cpp:161-167 | Every accepted body has an even number of one bits, so an odd number of bit errors is always found. |
| `Fcs16.ZerosInFront` | src/SerialPort/HDLC/FCS16.cpp:74-80 | An accepted body with zero octets in front is accepted if and only if they lead the register back to its start value of all ones. |
| `Fcs16.FewZerosDetected` | src/SerialPort/HDLC/FCS16.cpp:74-80 | One to four of them never pass. |
| `Fcs16.ShiftInIsShift` | src/SerialPort/HDLC/FCS16.cpp:74-80 | One bit of the update on 16-bit words is the bit-by-bit shift register with feedback at its three taps. |
| `Fcs16.ShiftLossless` | src/SerialPort/HDLC/FCS16.cpp:74-80 | The register update is injective in the register. |
| `Fcs16.TwoBytesInjective` | src/SerialPort/HDLC/FCS16.cpp:74-80 | Two update steps are injective in the two bytes. |
| `Lfsr.BurstVisible` | src/SerialPort/HDLC/FCS16.cpp:74-80 | For any lossless, traceable register: equal data after a short burst cannot hide it. |
| `AliveStates.AliveIsHistory` | src/SerialPort/HDLC/AliveState.cpp:122-197 | After any run since Start, alive holds if and only if a valid frame was received and fewer than three state timeouts fired since the last one; FOUND if fewer than two; the received flag if none. |
| `AliveStates.EverySearchTimeoutProbes` | src/SerialPort/HDLC/AliveState.cpp:203-214 | The probes called for in the search are as many as the probe timeouts that find no frame heard or three state timeouts since. |
| `AliveStates.ProbesUnlessFound` | src/SerialPort/HDLC/AliveState.cpp:203-214 | After any run a probe timeout calls for a probe unless a frame was heard with at most one state timeout since. |
| `AliveStates.SearchProgress` | src/SerialPort/HDLC/AliveState.cpp:203-214 | After n probes of the search, also with interruptions, the rate was toggled exactly n / 4 times. |
| `AliveStates.SearchRateAt` | src/SerialPort/HDLC/AliveState.cpp:203-214 | The k-th probe of the search is sent at the rate after (k + 1) / 4 toggles. |
| `AliveStates.EightProbesTryBothRates` | src/SerialPort/BaudRate.h:44-68 | Any eight consecutive probes of the search are sent four at each rate. |
| `AliveStates.AliveState.constructor` | src/SerialPort/HDLC/AliveState.cpp:46-48 | A new entity probes. |
| `AliveStates.AliveState.Reset` | src/SerialPort/HDLC/AliveState.cpp:62-66 | Back to probing. |
| `AliveStates.AliveState.Start` | src/SerialPort/HDLC/AliveState.cpp:72-83 | The search starts afresh. |
| `AliveStates.AliveState.Stop` | src/SerialPort/HDLC/AliveState.cpp:89-93 | Back to probing. |
| `AliveStates.AliveState.OnFrameReceived` | src/SerialPort/HDLC/AliveState.cpp:122-133 | FOUND; reports a change exactly if the link was not alive. |
| `AliveStates.AliveState.OnStateTimeout` | src/SerialPort/HDLC/AliveState.cpp:182-197 | The transition on a state timeout; the assertion is unreachable. |
| `AliveStates.AliveState.OnProbeTimeout` | src/SerialPort/HDLC/AliveState.cpp:203-214 | The transition on a probe timeout; a probe is called for exactly if not FOUND, the change of the rate exactly at every fourth probe timeout in PROBING. |
| `AliveStates.BaudRate.ToggleBaudRate` | src/SerialPort/BaudRate.h:44-68 | From either index the rate reported before and the one reported after are 9600 and 115200 in some order. |
| `ProtocolStates.ProtocolState.constructor` | src/SerialPort/HDLC/ProtocolState.cpp:42-63 | A new, stopped entity that satisfies the invariant. |
| `ProtocolStates.ProtocolState.Reset` | src/SerialPort/HDLC/ProtocolState.cpp:65-80 | Everything but the two queues is reset, parser and liveness included. |
| `ProtocolStates.ProtocolState.Start` | src/SerialPort/HDLC/ProtocolState.cpp:82-88 | Reset, first probe, and the same reaction as the value-level model; invariant kept. |
| `ProtocolStates.ProtocolState.Stop` | src/SerialPort/HDLC/ProtocolState.cpp:90-96 | Reset if running; invariant kept. |
| `ProtocolStates.ProtocolState.SendPayload` | src/SerialPort/HDLC/ProtocolState.cpp:106-124 | Enqueues, and uses the slot; the guard of the source never matters. |
| `ProtocolStates.ProtocolState.TriggerNextHDLCFrame` | src/SerialPort/HDLC/ProtocolState.cpp:126-135 | Frees the slot and uses it, if running. |
| `ProtocolStates.ProtocolState.AddReceivedRawBytes` | src/SerialPort/HDLC/ProtocolState.cpp:137-144 | Bytes are parsed and every delivered frame interpreted in turn, if running; otherwise nothing happens. |
| `ProtocolStates.ProtocolState.InterpretDeserializedFrame` | src/SerialPort/HDLC/ProtocolState.cpp:146-271 | The whole reaction to one frame equals the value-level reaction; invariant kept. |
| `ProtocolStates.ProtocolState.RequestMissing` | src/SerialPort/HDLC/ProtocolState.cpp:179-185 | The loop over an unsigned char ends and collects exactly the gap list. |
| `ProtocolStates.ProtocolState.CheckAcks` | src/SerialPort/HDLC/ProtocolState.cpp:192-265 | The acknowledgement carried by I, RR, RNR, REJ and SREJ frames. |
| `ProtocolStates.ProtocolState.TakeAck` | src/SerialPort/HDLC/ProtocolState.cpp:202-210 | Pops the head exactly if its acknowledgement is awaited. |
| `ProtocolStates.ProtocolState.TakeRNR` | src/SerialPort/HDLC/ProtocolState.cpp:211-230 | The same under RNR, where nothing stays awaited. |
| `ProtocolStates.ProtocolState.TakeReject` | src/SerialPort/HDLC/ProtocolState.cpp:231-264 | REJ and SREJ. |
| `ProtocolStates.ProtocolState.OpportunityForTransmission` | src/SerialPort/HDLC/ProtocolState.cpp:273-379 | At most one frame by priority, or a query of the clients; what is written to the line is always the encoding of what was sent. |
| `ProtocolStates.ProtocolState.PrepareAcknowledgement` | src/SerialPort/HDLC/ProtocolState.cpp:314-346 | RR, poll, or the start of polling. |
| `ProtocolStates.ProtocolState.TransmitFrame` | src/SerialPort/HDLC/ProtocolState.cpp:365-378 | Slot taken, frame serialised, stuffed and written. |
| `ProtocolStates.ProtocolState.QueryForPayload` | src/SerialPort/HDLC/ProtocolState.cpp:354-362 | Clients may send from inside the query, which nests; the loop ends. |
| `ProtocolStates.ProtocolState.PrepareSFrameSREJ` | src/SerialPort/HDLC/ProtocolState.cpp:408-416 | Requests the first missing frame and takes it off the list. |
| `ProtocolStates.ProtocolState.OnRetransmitTimeout` | src/SerialPort/HDLC/ProtocolState.cpp:305-311 | Expiry of the retransmission timer. |
| `ProtocolStates.ProtocolState.OnPollTimeout` | src/SerialPort/HDLC/ProtocolState.cpp:336-344 | Expiry of the polling timer. |
| `ProtocolStates.ProtocolState.OnStateTimeout` | src/SerialPort/HDLC/AliveState.cpp:182-197 | Expiry of the state timer as the entity sees it. |
| `ProtocolStates.ProtocolState.OnProbeTimeout` | src/SerialPort/HDLC/AliveState.cpp:203-214 | Expiry of the probe timer, with the probe it may send. |
| `ProtocolStates.EncodedStreamSnoc` | src/SerialPort/HDLC/ProtocolState.cpp:365-378 | Writing one more frame extends the byte stream by its encoding. |
| `PortTheorems.LockCountsHolders` | src/SerialPort/SerialPortHandler.cpp:51-77 | In every run, with any number of clients joining, locking, unlocking and dying: the lock counter is the number of living clients that hold the lock, and an opened port runs if and only if nobody does. |
| `PortBeliefs.ClientsAreTold` | src/HdlcdServer/HdlcdServerHandler.cpp:66-75 | In every run every living client was sent a first message, never two equal ones in a row, exactly the changes of what its updates showed; the last one is right about its own lock and about whether another client holds one, and it is right about the device if and only if the device was not lost by the state timer without an update since; wrong it can only be by believing the device alive. |
| `PortBeliefs.LossUnnoticed` | src/SerialPort/HDLC/AliveState.cpp:182-197 | Such a loss is reached: a client joins, the device answers, the state timer gives it up, and the client still believes in it. |
| `PortBeliefs.StepBelief` | src/SerialPort/SerialPortHandler.cpp:41-98 | What every living client believes of the device after one event of any kind: updates inside the answers to a query count, however deep, deliveries do not. |
| `PortBeliefs.WalkBelief` | src/SerialPort/SerialPortHandler.cpp:227-256 | A walk corrects the belief of all living clients exactly if it, or a walk that some living client causes from inside it, is an update. |
| `PortTheorems.PropagationIsExact` | src/SerialPort/SerialPortHandler.cpp:79-83 | Right after every event that propagates, the last message of every living client is the current triple. |
| `PortTheorems.SubscribersCounted` | src/SerialPort/SerialPortHandler.cpp:89-98 | In every run the counters equal the list entries per type, so a frame nobody is counted for is wanted by no living client. |
| `PortTheorems.SkippingDropsNothing` | src/SerialPort/SerialPortHandler.cpp:89-98 | With a zero counter, the walk that is skipped would have left every client as it is. |
| `PortDeliveries.ClientsGetWhatTheyAskedFor` | src/HdlcdServer/HdlcdServerHandler.cpp:50-64 | In every run a living client was sent, in order, exactly those of the packets offered since it joined that are of its kind, sent or received as it asked, and valid unless it asked for invalid ones; offered are the packets of frames and of the walks that answers to queries cause, however deep. |
| `PortDeliveries.SelectedIs` | src/HdlcdServer/HdlcdServerHandler.cpp:50-64 | The selection keeps every packet that was asked for as often as it was offered, and no other. |
| `PortDeliveries.ForEachBrings` | src/SerialPort/SerialPortHandler.cpp:227-265 | A walk brings every living client what it asked for among the packets of the walk and of all walks nested in it. |
| `PortTheorems.WalkReachesAll` | src/SerialPort/SerialPortHandler.cpp:227-256 | A propagation or delivery visits every living client exactly once, in order, and removes exactly the expired entries. |
| `PortTheorems.WalkedKeeps` | src/SerialPort/SerialPortHandler.cpp:227-256 | Whatever single updates and deliveries keep is kept by walks, however deep re-entrant walks nest. |
| `PortTheorems.WalkedErases` | src/SerialPort/SerialPortHandler.cpp:246-252 | The outermost walk leaves no expired entry and changes no count of holders; nested walks erase nothing. |
| `PortTheorems.ReactKeeps` | src/SerialPort/SerialPortHandler.cpp:41-98 | The bookkeeping invariant, kept by every event. |
| `PortTheorems.OthersExact` | src/HdlcdServer/LockGuard.cpp:96-102 | Comparing the counter with 0 or 1 decides exactly whether another client holds the lock. |
| `PortTheorems.UpdatedTells` | src/HdlcdServer/HdlcdServerHandler.cpp:66-75 | One update sends a message exactly if there was none yet or something changed, and leaves the client up to date. |
| `PortTheorems.ChangesFacts` | src/HdlcdServer/AliveGuard.h:48-52 | The sequence of changes has no two equal neighbours, repeats to the full history, and ends with the current state. |
| `PortTheorems.GuardInitialised` | src/HdlcdServer/LockGuard.cpp:55-60 | The assertions of the lock guard's initialisation hold for every client that joins. |
| `PortLink.PortEventsSuffice` | src/SerialPort/SerialPortHandler.cpp:41-83 | What the port knows of the protocol changes only by start, stop, valid frames and the state timer, as the port model assumes. |
| `PortRuns.ClientsKnowTheLink` | src/SerialPort/SerialPortHandler.cpp:41-83 | In every run of port and entity together, the entity runs if and only if the port was opened and nobody holds the lock, and the last message of every living client is right about the liveness of the entity if and only if its device was not lost by the state timer without an update since. |
| `PortRuns.JoinedParts` | src/SerialPort/SerialPortHandler.cpp:51-77 | Such a run is a run of the entity, started and stopped by the locks, and a run of the port, told by the entity. |
| `PortRuns.EveryLinkRunHasAPort` | src/SerialPort/SerialPortHandler.cpp:124-140 | Every run of the entity, with any starts and stops, is the entity of such a run, whose port knows it at the end. |
| `SerialPortHandlers.SerialPortLock.SuspendSerialPort` | src/SerialPort/SerialPortLock.cpp:28-30 | Counts up; tells the first lock. |
| `SerialPortHandlers.SerialPortLock.ResumeSerialPort` | src/SerialPort/SerialPortLock.cpp:32-34 | Counts down; tells the last lock; never called at zero. |
| `SerialPortHandlers.AliveGuard.UpdateSerialPortState` | src/HdlcdServer/AliveGuard.h:48-52 | Stores the state and tells whether it changed. |
| `SerialPortHandlers.LockGuard.UpdateSerialPortState` | src/HdlcdServer/LockGuard.cpp:96-112 | Derives whether others hold the lock and tells whether anything changed. |
| `SerialPortHandlers.LockGuard.AcquireLock` | src/HdlcdServer/LockGuard.cpp:67-73 | At most once per client; the port is suspended by the first. |
| `SerialPortHandlers.LockGuard.ReleaseLock` | src/HdlcdServer/LockGuard.cpp:80-86 | Only if held; the port is resumed by the last. |
| `SerialPortHandlers.LockGuard.Destruct` | src/HdlcdServer/LockGuard.cpp:43-47 | A held lock is released. |
| `SerialPortHandlers.HdlcdServerHandler.constructor` | src/HdlcdServer/HdlcdServerHandler.cpp:33-48 | A new client. |
| `SerialPortHandlers.HdlcdServerHandler.UpdateSerialPortState` | src/HdlcdServer/HdlcdServerHandler.cpp:66-75 | Updates both guards and sends a message if due. |
| `SerialPortHandlers.HdlcdServerHandler.DeliverBufferToClient` | src/HdlcdServer/HdlcdServerHandler.cpp:50-64 | Sends the packet exactly if type, direction and validity are subscribed. |
| `SerialPortHandlers.HdlcdServerHandler.Expire` | src/HdlcdServer/LockGuard.cpp:43-47 | The client dies: its entry expires and its lock is released. |
| `SerialPortHandlers.SerialPortHandler.constructor` | src/SerialPort/SerialPortHandler.cpp:29-35 | A new port. |
| `SerialPortHandlers.SerialPortHandler.AddHdlcdServerHandler` | src/SerialPort/SerialPortHandler.cpp:41-49 | Counted, listed, and told if the protocol runs. |
| `SerialPortHandlers.SerialPortHandler.SuspendSerialPort` | src/SerialPort/SerialPortHandler.cpp:51-64 | The first lock stops the protocol; everybody is told. |
| `SerialPortHandlers.SerialPortHandler.ResumeSerialPort` | src/SerialPort/SerialPortHandler.cpp:66-77 | The last unlock reopens; everybody is told. |
| `SerialPortHandlers.SerialPortHandler.PropagateSerialPortState` | src/SerialPort/SerialPortHandler.cpp:79-83 | Walks the list with an update. |
| `SerialPortHandlers.SerialPortHandler.DeliverBufferToClients` | src/SerialPort/SerialPortHandler.cpp:94-98 | Walks the list with a packet, whatever the counters say. |
| `SerialPortHandlers.SerialPortHandler.OfferBufferToClients` | src/SerialPort/HDLC/ProtocolState.cpp:153-159 | The caller delivers a packet only if somebody is counted for its type. |
| `SerialPortHandlers.SerialPortHandler.OpenSerialPort` | src/SerialPort/SerialPortHandler.cpp:124-140 | Protocol restarted, everybody told. |
| `SerialPortHandlers.SerialPortHandler.StopProtocol` | src/SerialPort/HDLC/ProtocolState.cpp:90-96 | Stopping a running protocol tells everybody. |
| `SerialPortHandlers.SerialPortHandler.StartSession` | src/HdlcdServer/HdlcdServerHandler.cpp:198-203 | A client joins; the first one opens the port; an initial message is due. |
| `SerialPortHandlers.SerialPortHandler.ForEachHdlcdServerHandler` | src/SerialPort/SerialPortHandler.cpp:227-265 | The guarded walk: erases expired entries unless it is a cyclic call, then rebuilds the counters; ends although visits call it again. |
| `SerialPortHandlers.SerialPortHandler.GuardedVisit` | src/SerialPort/SerialPortHandler.cpp:234-245 | Walks caused by a visit find the guard set. |
| `SerialPortHandlers.SerialPortHandler.RebuildSubscriptions` | src/SerialPort/SerialPortHandler.cpp:257-264 | Counters from scratch equal the list; each further level has erased an entry, so the recursion ends. |

## Left out

- Sockets, files and real time: timers are events that can fire only while armed, and a cancelled timer never fires; a started link has its state and probe timers armed.
- The TCP side: accepting connections, session headers, packets, the collections of handlers.
- `HdlcFrame::Dissect`, text for humans.
- Object lifetimes: no client dies while the list is being walked; a client's death is an event of its own.
- Unplugged ports, a port that cannot be opened, the shutdown and kill requests, and partial writes across a suspension: they depend on the operating system; the port stays registered throughout.
- Data from the device to the host has no acknowledged delivery in the code (TODO:10), so no order or duplicate suppression is claimed for it.
- REJ as go-back-N: the code sets the send number to N(R) - 1; it is modelled, but excluded from the peer in the end-to-end theorems.
- Frame types the generator refuses with an assertion (SIM, SARM, UP, SNRM, XID): excluded by the type of frames to serialise.
- Bounds of the wait queues: the code has none.
- The copies of frames for clients (raw, dissected, payload) are events of the port model with any content; the link model does not produce them.
- The protocol inside the port model is two flags, running and alive; `PortRun` ties them to the link entity in runs of both. The test frame sent when the protocol starts, and the walks over the clients that a query of the entity makes, are separate events there.
- Fcs16.Pppfcs16: the table is stored as 32 rows of eight, and the message is a sequence instead of a pointer and a length.
- FrameGenerator.ApplyFCS: returns the extended frame instead of changing its argument.
- AliveStates.AliveState.Start: the first probe and the arming of the two timers are left to its caller, `ProtocolStates.ProtocolState.Start`, which sends the probe; timers of a started link count as armed.
- AliveStates.AliveState.OnProbeTimeout: tells which callbacks run instead of running them; the protocol class runs them.
- ProtocolStates.ProtocolState.OnProbeTimeout: reports the change of the baud rate to its caller, who toggles the rate.
- ProtocolStates.ProtocolState.Stop: telling the clients is `SerialPortHandlers.SerialPortHandler.StopProtocol`.
- ProtocolStates.ProtocolState.AddReceivedRawBytes: the frames of one read are interpreted after it was parsed, not while it is parsed; the parser does not depend on them.
- ProtocolStates.ProtocolState.InterpretDeserializedFrame: the copies of the frame for clients and the propagation when the link comes alive are events of the port model.
- ProtocolStates.ProtocolState.OpportunityForTransmission: the copies of the payload for clients are events of the port model.
- ProtocolStates.ProtocolState.TransmitFrame: the raw and dissected copies for clients are events of the port model.
- SerialPortHandlers.SerialPortHandler.OpenSerialPort: the first probe frame, offered to raw and dissected clients during the start, is a separate event.
- SerialPortHandlers.SerialPortLock.ResumeSerialPort: the counter is unbounded, and a decrement at zero, which would wrap, is proved not to happen.
- SerialPortHandlers.SerialPortHandler.ForEachHdlcdServerHandler: the function applied to the clients is one of three kinds (update, delivery, query) instead of any function; counting is a method of its own.
- ArqProgress.SessionsCanProgress: states that a continuation exists; which one happens is up to the line, the driver and the peer, about which nothing fair is assumed.
- Arq.HappenKeeps: the peer accepts a frame by its number alone, also one with an empty payload; a peer that ignores empty frames, as this entity does, would leave such a payload at the head of the queue.
