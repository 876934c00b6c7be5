# OnionRoute: a verified model of the client core and the gateways

This project models, in Dafny 4.11, the parts of OnionRoute that carry traffic, and proves what must hold
in every run of them. `dafny verify dfyconfig.toml` checks everything.

| part | files |
|---|---|
| Gateway sessions: credit ledger, session, two sessions joined by channels | `FlowControl`, `Session`, `SessionEndpoint`, `CreditLane`, `SessionPipes`, `SessionNetwork`, `SessionLanes`, `SessionStreams`, `SessionSafety`, `SessionCloses`, `SessionData`, `SessionRules` |
| Fair outbound scheduling, specified once and implemented twice | `FairQueue`, `FairQueueRuns`, `GatewayScheduler`, `RelayMux` |
| IPv4, TCP and UDP packets with the Internet checksum | `Bytes`, `Checksum`, `Packet`, `PacketTheorems`, `PacketWire`, `PacketBuilder` |
| The local TCP proxy | `TcpFlow`, `TcpFlowTheorems`, `DnsStream`, `Engine`, `EngineInvariant`, `EngineCloses`, `EngineWorld`, `EngineRuns`, `EngineTheorems`, `EnginePackets`, `EngineFlows`, `EngineTimers`, `EngineRoutes`, `TcpTable`, `EngineTable`, `PacketProcessor` |
| The client core: engine, work queue and stream table | `Dispatcher`, `ConnectionDispatcher`, `ClientCore`, `ClientCoreInvariant`, `ClientCoreTheorems`, `ClientCoreDns`, `ClientCoreStreams`, `CoreRuntime` |
| Frames on a byte stream and their length prefixes | `Varint`, `PrefixReaders`, `Framing`, `FrameDecoder` |
| The synthetic DNS cache | `DnsCache`, `DnsCacheTheorems`, `SyntheticDns` |
| The gateway's resolver | `DnsNames`, `DnsRoutes`, `DnsQueries`, `GatewayDns`, `DnsMessages`, `DnsResponse` |
| Flow credit of the daemon and byte quotas of the multihop gateway | `FlowCredit`, `Quota`, `QuotaManager`, `QuotaRuns` |

Each part has the same shape. A value-level machine says what every operation does; lemmas over whole runs
say what that guarantees; and where the program updates state in place, a class with the program's own
fields and loops is proved to compute exactly the machine's steps. What the outside decides is an input:
clock readings, hash-table iteration orders, route decisions, DNS answers, how much each write accepts
and which operation of the gateway fails.

Two devices belong to the model and not to the program. A *trace* records, in unbounded numbers, what a
TCP flow has taken from the application and given to it; theorems compare the program's 32-bit numbers
with it. And a synthetic TCP packet is tagged with the flow it answers, which the program knows when it
builds the packet but does not keep.

## What the proofs brought to light

Each of these is a property one might expect, a run or an input on which it fails, and the exact condition
under which it holds.

- DATA that is debited and then cancelled by closing its stream before it was sent is never credited back
  to the connection window. `SessionSafety.ConnectionWindowsBalance` has that loss as a term of its own;
  `SessionCloses.LossHappens` is a run with a loss, and by `SessionCloses.LossFreeIff` there is none if and
  only if no stream is closed with DATA queued on it.
- A half close is queued on the control FIFO and overtakes DATA queued before it; the peer then refuses that
  DATA and closes the session (`SessionCloses.OvertakingHappens`). It never happens when half closes are called
  with nothing queued on the stream (`CleanHalfCloses`), and from a quiet state it can happen exactly when
  something is queued (`HalfCloseExact`).
- The engine permits up to 65535 bytes in one segment towards the application, but no packet holds more
  than 65495; the program then emits an empty packet. By `EnginePackets.AllArrive` every segment of every run
  arrives if and only if the configuration stays within 65495.
- DNS queries are answered before the application can acknowledge anything, so two queries in one TCP segment
  always end the flow (`ClientCoreDns.DnsSegmentOutcome`, with the run `TwoQueriesEnd`).
- A computed UDP checksum of zero is written as zero, which means that there is none: a changed payload
  byte goes undetected in such a datagram, and only in such a one (`PacketTheorems.UdpCorruptionIff`,
  `ZeroChecksumExists`).
- The cache may be configured for up to 131070 names, but the pool has 130048 usable addresses;
  some run exhausts it if and only if the limit is above 130048 (`DnsCacheTheorems.ExhaustedIff`,
  `RunNeverExhausted`, `RunExhausts`).
- Canonical hostnames may have more than sixteen labels, but queries for them are refused
  (`GatewayDns.QueryRoundTrip` holds if and only if there are at most sixteen).
- The decoder reports five continued prefix bytes only with the sixth byte, the one-shot reader at once
  (`Framing.ChunkingIrrelevant`, `Framing.DelayedError`).
- A byte quota binds one record. Every new record of an entry brings a new burst, in the bound
  (`QuotaRuns.GrantedEver`) and in fact (`QuotaRuns.BurstTwice`).

## Model

| member | source | states |
|---|---|---|
| SessionSafety.DataFitsWindows | crates/gateway-protocol/src/flow.rs:170-191 | In every reachable state of two sessions joined by FIFO channels, a DATA frame at the head of a channel is accepted if and only if its stream is still open for reading: window size is never the reason for refusing a conforming peer. |
| SessionSafety.CreditFitsCaps | crates/gateway-protocol/src/flow.rs:193-212 | In every reachable state a WINDOW_UPDATE at the head of a channel is accepted if and only if its stream still exists or it is for the connection: credit never overflows the cap of a conforming peer. |
| SessionSafety.StreamWindowsBalance | crates/gateway-protocol/src/session.rs:284-353 | For a stream open at both ends the receive window equals the peer's send window plus DATA debited but not received plus credit granted but not applied, in both directions and every reachable state. |
| SessionSafety.ConnectionWindowsBalance | crates/gateway-protocol/src/flow.rs:147-231 | The same balance for the connection windows, exact up to the DATA bytes that were debited and then cancelled before they were sent. |
| SessionSafety.SequencesMatch | crates/gateway-protocol/src/session.rs:435-528 | No frame between two live sessions is ever refused for its sequence number. |
| SessionSafety.RunInv | crates/gateway-protocol/src/session.rs:240-643 | The joint invariant of both endpoints, both queues and both channels holds after every step of every run. |
| SessionSafety.NextInv | crates/gateway-protocol/src/session.rs:240-643 | Every call, flush and receive at either endpoint keeps the joint invariant. |
| SessionData.BytesExact | crates/gateway-protocol/src/session.rs:284-307 | In every run, while the sender lives and has not dropped a stream, the bytes delivered to the peer, in the channel and queued are exactly the bytes that its DATA calls accepted, in their order. |
| SessionData.DeliveredPrefix | crates/gateway-protocol/src/session.rs:461-528 | In every run the bytes delivered of a stream, followed by those in the channel, are a front part of the bytes accepted for it. |
| SessionData.DataCall | crates/gateway-protocol/src/session.rs:284-307 | An accepted DATA call queues the first 32768 bytes of its payload, or all of a shorter one, behind what the stream has queued, debits as many from both windows and touches nothing else. |
| SessionRules.CallDecided | crates/gateway-protocol/src/session.rs:240-410 | Every call of a session succeeds if and only if all its conditions hold: phase, role, capability, stream state, credit and queue room, listed in their order; otherwise the first that does not is its error. |
| SessionRules.FrameDecided | crates/gateway-protocol/src/session.rs:469-643 | Every frame is taken if and only if all its conditions hold; otherwise the first that does not is the error, and the session is closed. |
| SessionRules.PhaseExact | crates/gateway-protocol/src/session.rs:404-528 | A session drains exactly when it says or is told to go away, closes exactly on a failed write, a refused or fatal frame or a broken transport, and never comes back. |
| SessionRules.LimitsHold | crates/gateway-protocol/src/scheduler.rs:107-149 | In every run queued bytes, queued bytes of one stream, control frames and open streams stay within the limits of their endpoint. |
| SessionRules.DrainingTakesNone | crates/gateway-protocol/src/session.rs:657-676 | Once a session drains or is closed it never has a new stream, on whichever side. |
| SessionRules.CapabilitiesRespected | crates/gateway-protocol/src/session.rs:678-686 | In every run an endpoint without the TCP capability has no streams and says nothing about any, and one without credits grants none. |
| SessionCloses.LossFreeIff | crates/gateway-protocol/src/session.rs:335-353 | In every run no connection credit is lost if and only if no stream was ever closed, here or by the peer, with DATA queued on it. |
| SessionCloses.LossHappens | crates/gateway-protocol/src/session.rs:335-353 | A run with both sides live in which credit is lost: open, accept, queue DATA, close. |
| SessionCloses.CleanHalfCloses | crates/gateway-protocol/src/session.rs:322-333 | If every half close of a stream finds nothing queued on it, arriving DATA of the stream is accepted exactly while the stream is open, in both directions and every run. |
| SessionCloses.HalfCloseExact | crates/gateway-protocol/src/scheduler.rs:151-184 | For either endpoint: from any reachable state in which nothing else of it is under way, some continuation makes the half close of a stream overtake its DATA, which the peer then refuses, if and only if DATA is queued on the stream when it is half-closed. |
| SessionCloses.OvertakingHappens | crates/gateway-protocol/src/session.rs:322-333 | A run in which DATA is refused because the half close of its stream overtook it. |
| SessionStreams.ClientMoves | crates/gateway-protocol/src/session.rs:582-591 | Any move of the client keeps, for every stream, both credit lanes sound and at most one initial window on the way. |
| SessionStreams.ServerMoves | crates/gateway-protocol/src/session.rs:253-282 | Any move of the server keeps the same. |
| SessionNetwork.MovedShape | crates/gateway-protocol/src/session.rs:335-353 | Every move keeps stream queues holding only DATA of their own stream, and closing a stream cancels exactly its queue. |
| CreditLane.Debit | crates/gateway-protocol/src/flow.rs:147-168 | Spending send credit keeps a lane balanced. |
| CreditLane.Grant | crates/gateway-protocol/src/flow.rs:214-231 | Granting credit while the receive window stays within its cap keeps the sender's eventual window within its cap. |
| CreditLane.Arrive | crates/gateway-protocol/src/flow.rs:193-212 | Applying the oldest window message keeps a lane balanced and its remaining promises within the cap. |
| FlowControl.FlowController.constructor | crates/gateway-protocol/src/flow.rs:59-79 | A new ledger has the given connection windows and no streams. |
| FlowControl.FlowController.Create | crates/gateway-protocol/src/flow.rs:59-79 | A ledger exists if and only if both connection windows are valid and at least one stream is permitted. |
| FlowControl.FlowController.InsertNewStream | crates/gateway-protocol/src/flow.rs:266-299 | A stream is added exactly when its id is odd and above all seen, and the ledger has room; otherwise nothing changes. |
| FlowControl.FlowController.OpenLocalStream | crates/gateway-protocol/src/flow.rs:93-100 | Opening locally records the receive window and nothing sendable yet. |
| FlowControl.FlowController.ReceiveOpenStream | crates/gateway-protocol/src/flow.rs:102-109 | A peer's open records the send window and nothing receivable yet. |
| FlowControl.FlowController.ConfirmLocal | crates/gateway-protocol/src/flow.rs:111-123 | Confirmation sets the send window of a stream that is opening locally, or fails without effect. |
| FlowControl.FlowController.AcceptRemote | crates/gateway-protocol/src/flow.rs:125-137 | Acceptance sets the receive window of a stream that is opening remotely, or fails without effect. |
| FlowControl.FlowController.Remove | crates/gateway-protocol/src/flow.rs:139-145 | A stream is forgotten, or unknown and nothing changes. |
| FlowControl.FlowController.Send | crates/gateway-protocol/src/flow.rs:147-168 | Succeeds if and only if the bytes are at least one and within both send windows of a stream open for sending; then both fall by them, otherwise neither. |
| FlowControl.FlowController.Receive | crates/gateway-protocol/src/flow.rs:170-191 | Succeeds if and only if the bytes are at least one and within both receive windows of a stream open for receiving; then both fall by them, otherwise neither. |
| FlowControl.FlowController.WindowUpdate | crates/gateway-protocol/src/flow.rs:193-212 | Credit raises a send window within its cap or is refused without effect; stream zero is the connection. |
| FlowControl.FlowController.Grant | crates/gateway-protocol/src/flow.rs:214-231 | Granting raises the addressed receive window within its cap or changes nothing; stream zero is the connection. |
| FlowControl.FlowController.HalfCloseLocal | crates/gateway-protocol/src/flow.rs:233-241 | The local half closes once. |
| FlowControl.FlowController.HalfCloseRemote | crates/gateway-protocol/src/flow.rs:243-253 | The remote half closes once. |
| SessionEndpoint.Endpoint.constructor | crates/gateway-protocol/src/session.rs:110-146 | An endpoint after its handshake: active, sequences at one. |
| SessionEndpoint.Endpoint.OpenTcpCall | crates/gateway-protocol/src/session.rs:240-251 | Opening commits ledger and queue together or leaves both as they were. |
| SessionEndpoint.Endpoint.AcceptTcpCall | crates/gateway-protocol/src/session.rs:253-268 | Accepting commits ledger and queue together or leaves both as they were. |
| SessionEndpoint.Endpoint.RejectTcpCall | crates/gateway-protocol/src/session.rs:270-282 | Rejecting commits ledger and queue together or leaves both as they were. |
| SessionEndpoint.Endpoint.TryQueueDataCall | crates/gateway-protocol/src/session.rs:284-307 | DATA is debited and queued together or not at all; what is queued is the front of the payload, cut at the data limit, and its length is returned; a window too small for it refuses it. |
| SessionEndpoint.Endpoint.GrantReceiveCredit | crates/gateway-protocol/src/session.rs:309-320 | Credit is granted and announced together or not at all. |
| SessionEndpoint.Endpoint.HalfCloseCall | crates/gateway-protocol/src/session.rs:322-333 | A half close is recorded and queued on the control FIFO, not behind the stream's DATA, or nothing happens. |
| SessionEndpoint.Endpoint.CloseStreamCall | crates/gateway-protocol/src/session.rs:335-353 | Closing forgets the stream, cancels its queue and queues the close, or changes nothing. |
| SessionEndpoint.Endpoint.QueueNoticeCall | crates/gateway-protocol/src/session.rs:390-402 | Other control messages are queued within the control limit. |
| SessionEndpoint.Endpoint.BeginGoAwayCall | crates/gateway-protocol/src/session.rs:404-410 | Draining starts exactly when its message is queued. |
| SessionEndpoint.Endpoint.FlushOne | crates/gateway-protocol/src/session.rs:424-454 | One frame leaves in fair order with the next sequence number; a failed write or flush closes the session, and a frame whose flush failed may still reach the peer. |
| SessionEndpoint.Endpoint.ApplyActiveInbound | crates/gateway-protocol/src/session.rs:555-643 | What each message does to the ledger, phase and queue. |
| SessionEndpoint.Endpoint.ReceiveFrame | crates/gateway-protocol/src/session.rs:461-487 | A frame is applied in sequence or closes the session. |
| FairQueueRuns.BoundedWaiting | crates/gateway-protocol/src/scheduler.rs:133-195 | The head item of the stream at position p of the active list is emitted or cancelled within 9*(p+1) pops, whatever is enqueued or cancelled in between. |
| FairQueueRuns.BoundIsTight | crates/gateway-protocol/src/scheduler.rs:151-184 | The bound is exact at every position: with enough control items queued and no burst begun, one pop fewer does not serve the stream. |
| FairQueueRuns.StreamFifo | crates/gateway-protocol/src/scheduler.rs:133-184 | Over any run without cancellation, what a stream emits followed by what it still holds is what it held followed by what it was offered. |
| FairQueueRuns.ControlFifo | crates/gateway-protocol/src/scheduler.rs:126-184 | The same for control items, over every run. |
| FairQueueRuns.ControlBurst | crates/gateway-protocol/src/scheduler.rs:151-184 | Up to eight control items in a row go before stream data. |
| FairQueue.NothingIffEmpty | crates/gateway-protocol/src/scheduler.rs:151-184 | A pop returns nothing if and only if nothing at all is queued. |
| FairQueue.PushControlAccounted | crates/gateway-protocol/src/scheduler.rs:126-131 | An admitted control item keeps both byte counters equal to the sums of queued sizes and within limits. |
| FairQueue.PushStreamAccounted | crates/gateway-protocol/src/scheduler.rs:133-149 | An admitted stream item keeps both byte counters exact and within limits. |
| FairQueue.ControlAdmittedIff | crates/gateway-protocol/src/scheduler.rs:107-112 | A control frame is admitted if and only if the queue with it keeps to all limits; it overflows exactly when there is a place for it and the bytes cannot be counted. |
| FairQueue.StreamAdmittedIff | crates/gateway-protocol/src/scheduler.rs:114-124 | The same for a frame of a stream. |
| FairQueue.RestAccounted | crates/gateway-protocol/src/scheduler.rs:151-184 | Subtracting the popped item keeps both counters exact; no subtraction saturates. |
| FairQueue.CancelAccounted | crates/gateway-protocol/src/scheduler.rs:186-195 | Cancelling a stream subtracts exactly its bytes. |
| FairQueue.RestKeeps | crates/gateway-protocol/src/scheduler.rs:151-184 | A pop keeps the active list equal to the non-empty streams, once each, and lowers the byte total by the item. |
| GatewayScheduler.FairScheduler.constructor | crates/gateway-protocol/src/scheduler.rs:78-101 | An empty scheduler within its limits. |
| GatewayScheduler.FairScheduler.Create | crates/gateway-protocol/src/scheduler.rs:78-101 | A scheduler exists if and only if its limits are consistent. |
| GatewayScheduler.FairScheduler.CanEnqueueControl | crates/gateway-protocol/src/scheduler.rs:107-112 | Control admission depends on the real queue contents, not only on counters. |
| GatewayScheduler.FairScheduler.CanEnqueueStream | crates/gateway-protocol/src/scheduler.rs:114-124 | Stream admission depends on the real queue contents. |
| GatewayScheduler.FairScheduler.EnqueueControl | crates/gateway-protocol/src/scheduler.rs:126-131 | Refines a push on the control FIFO, or refuses without effect. |
| GatewayScheduler.FairScheduler.EnqueueStream | crates/gateway-protocol/src/scheduler.rs:133-149 | Refines a push on the stream FIFO, or refuses without effect. |
| GatewayScheduler.FairScheduler.PopNext | crates/gateway-protocol/src/scheduler.rs:151-184 | Refines the fair pop; returns nothing exactly when everything is empty. |
| GatewayScheduler.FairScheduler.CancelStream | crates/gateway-protocol/src/scheduler.rs:186-195 | Refines dropping one stream FIFO. |
| RelayMux.FairMuxQueue.constructor | crates/gateway-multihop/src/mux.rs:54-77 | An empty multiplexer queue within its limits. |
| RelayMux.FairMuxQueue.Create | crates/gateway-multihop/src/mux.rs:54-77 | A queue exists if and only if its limits are consistent. |
| RelayMux.FairMuxQueue.TryPush | crates/gateway-multihop/src/mux.rs:83-124 | The second implementation refines the same fair queue: a push or a refusal without effect, with the same admission rule and odd session ids. |
| RelayMux.FairMuxQueue.PopNext | crates/gateway-multihop/src/mux.rs:126-166 | Refines the same fair pop. |
| RelayMux.FairMuxQueue.CancelSession | crates/gateway-multihop/src/mux.rs:168-177 | Refines the same cancellation. |
| RelayMux.AdmittedIff | crates/gateway-multihop/src/mux.rs:83-124 | A command is admitted if and only if its bytes plus an overhead of 128 are countable, a session has an odd number, and the queue with it keeps to all limits. |
| PacketTheorems.TcpRoundTrip | crates/packet-engine/src/packet.rs:173-341 | Classifying a built TCP packet, with anything behind it, gives back exactly the segment if and only if both ports are non-zero; a payload above 65495 bytes gives no packet. Packets of other senders, with options, are the subject of PacketWire.TcpExact. |
| PacketWire.TcpExact | crates/packet-engine/src/packet.rs:173-266 | A packet is classified as a segment if and only if it is a readable IPv4 header, with or without options, in front of exactly that segment, with or without TCP options. |
| PacketWire.UdpExact | crates/packet-engine/src/packet.rs:268-301 | A packet is classified as a datagram if and only if it is a readable IPv4 header in front of exactly that datagram, whose checksum is absent or verifies. |
| PacketWire.IcmpExact | crates/packet-engine/src/packet.rs:191-226 | The same for ICMP: the type and the code are the first two of at least four bytes behind the header. |
| PacketWire.OtherExact | crates/packet-engine/src/packet.rs:191-226 | The same for every protocol that is not TCP, UDP or ICMP. |
| PacketWire.Ipv6Exact | crates/packet-engine/src/packet.rs:173-189 | A packet is classified as IPv6 if and only if it has that version, forty header bytes and at least the payload announced. |
| PacketWire.SentGetsThrough | crates/packet-engine/src/packet.rs:173-266 | Whatever options and other header fields a sender chooses, its packet is classified as exactly the segment sent, with anything behind it. |
| PacketTheorems.UdpRoundTrip | crates/packet-engine/src/packet.rs:173-372 | The same for UDP up to 65507 bytes. |
| PacketTheorems.IpHeaderVerifies | crates/packet-engine/src/packet.rs:202-204 | The checksum of a built IPv4 header verifies to zero. |
| PacketTheorems.TransportVerifies | crates/packet-engine/src/packet.rs:389-398 | A transport checksum computed over a zeroed aligned field verifies to zero once written, for bytes of either parity. |
| PacketTheorems.IpTakesApart | crates/packet-engine/src/packet.rs:191-226 | A built header in front of any transport bytes is taken apart exactly. |
| PacketTheorems.CorruptionDetected | crates/packet-engine/src/packet.rs:243-245 | Any single changed payload byte of a built TCP packet is refused as a checksum error. |
| PacketTheorems.TcpCorruptionDetected | crates/packet-engine/src/packet.rs:228-266 | Any single changed byte of the TCP header or payload of a built packet is refused. |
| PacketTheorems.UdpCorruptionIff | crates/packet-engine/src/packet.rs:268-301 | A single changed payload byte of a built UDP packet is refused if and only if the written checksum is not zero; otherwise the changed datagram is accepted. |
| PacketTheorems.UdpByteAcceptedIff | crates/packet-engine/src/packet.rs:268-301 | With one changed byte anywhere but in the length field, a built UDP packet is accepted if and only if it then has a zero checksum field and both ports are non-zero. |
| PacketTheorems.ZeroChecksumExists | crates/packet-engine/src/packet.rs:343-372 | Between any two sockets some two-byte payload is sent with a zero checksum field. |
| Checksum.ComputeChecksum | crates/packet-engine/src/packet.rs:374-387 | The accumulating and folding loops compute the ones-complement sum of section 1 of RFC 1071. |
| Checksum.AddWords | crates/packet-engine/src/packet.rs:374-382 | The loop sums big-endian words, a last odd byte padded, modulo 2^32. |
| Checksum.NoWrap | crates/packet-engine/src/packet.rs:375-382 | The 32-bit sum never wraps for any packet. |
| Checksum.ChecksumVerifies | crates/packet-engine/src/packet.rs:335-339 | A checksum written into its zeroed field makes the whole sum to zero. |
| Checksum.OneByteChanges | crates/packet-engine/src/packet.rs:374-387 | Changing one byte changes the checksum. |
| PacketBuilder.BuildTcpPacket | crates/packet-engine/src/packet.rs:304-341 | Writing fields into the zeroed buffer, checksums last, yields exactly the packet of the segment. |
| PacketBuilder.BuildUdpPacket | crates/packet-engine/src/packet.rs:343-372 | The same for UDP. |
| PacketBuilder.ComputeTransportChecksum | crates/packet-engine/src/packet.rs:389-398 | The checksum over pseudo header and bytes. |
| EngineTheorems.ForwardedPrefix | crates/packet-engine/src/engine.rs:505-615 | If all segments of a flow are cut from one client stream shorter than 2^32 bytes, then under any reordering, repetition or cutting the bytes handed on are a prefix of that stream, in every run and also after the flow is gone. |
| EngineTheorems.ClientNextExact | crates/packet-engine/src/engine.rs:576-615 | While the flow lives, the next expected sequence number is the initial one plus one, plus the bytes forwarded, plus one once the FIN was consumed, modulo 2^32; a consumed FIN means the whole stream was forwarded. |
| EngineTheorems.SentBytesAgree | crates/packet-engine/src/engine.rs:816-914 | Every data or FIN segment ever sent names the place of its bytes in the one stream given to the application, so no later segment contradicts an earlier one; every acknowledgement covers only what was taken. |
| EnginePackets.SentArrives | crates/packet-engine/src/engine.rs:1240-1260 | Every segment sent in any run fits the wire but perhaps for its payload: its packet is classified as that segment if and only if the payload has at most 65495 bytes, and is empty otherwise. |
| EnginePackets.AllArrive | crates/packet-engine/src/engine.rs:68-80 | Every segment of every run of a configuration arrives if and only if the configuration permits at most 65495 bytes towards the application. |
| EnginePackets.GivesPayload | crates/packet-engine/src/engine.rs:816-869 | For every valid configuration and permitted payload some run sends a segment with that payload. |
| EnginePackets.StepSent | crates/packet-engine/src/engine.rs:139-1153 | Every call keeps the ports of all flows non-zero and sends only segments with fields that fit the wire. |
| EngineTheorems.StopAndWait | crates/packet-engine/src/engine.rs:487-503 | In every reachable state a flow has at most one outstanding segment, ending at the next sequence number; the application queue holds exactly its payload; retransmissions stay within their limit. When it is released is the subject of EngineFlows.OutstandingFate. |
| EngineFlows.OutstandingFate | crates/packet-engine/src/engine.rs:487-503 | In every run the unacknowledged segment of a flow that survives an event is released if and only if the event is a segment that acknowledges all of it; otherwise it is kept as it is, and only the clock counts a repetition. |
| EngineFlows.EventRecord | crates/packet-engine/src/engine.rs:401-1127 | A flow that is there before and after an event has exactly the record that the event gives this flow, whatever the others do. |
| EngineTimers.TickEnds | crates/packet-engine/src/engine.rs:1024-1088 | In every run a tick ends a flow if and only if the engine is awake and the flow has been connecting too long, idle too long or repeated too often; the report says which. |
| EngineTimers.TickRepeats | crates/packet-engine/src/engine.rs:1024-1088 | A flow that survives a tick sends if and only if the engine is awake and its unacknowledged segment is overdue; it is sent as it was, and counted. |
| EngineTimers.ActivityExact | crates/packet-engine/src/engine.rs:1090-1128 | Every event that concerns a flow restarts its idle time, and no other does; waking up postpones all its deadlines by the time slept. |
| EngineRoutes.SynExact | crates/packet-engine/src/engine.rs:209-399 | In every run a SYN without a flow opens one if and only if the engine accepts, the path is healthy, the route is protected (or it asks for DNS) and there is room; otherwise it is reset with the reason, and nothing changes. |
| EngineRoutes.StrayExact | crates/packet-engine/src/engine.rs:209-262 | Any other segment without a flow changes nothing: a SYN that says more is reset, a reset is ignored, the rest is noted. |
| EngineRoutes.OnlyAdmitted | crates/packet-engine/src/engine.rs:321-399 | No other event of a run makes a flow or opens a stream; in particular none whose route is denied or bypassed. |
| EngineRoutes.UdpAnswerExact | crates/packet-engine/src/engine.rs:947-1022 | An answer to a pending query of a UDP client is sent to that client, from the resolver it asked, if and only if it has 1 to 65507 bytes; the query was asked before and is no longer pending. |
| TcpTable.SegmentTells | crates/packet-engine/src/engine.rs:401-733 | For every flow and every segment a table says whether the flow ends and, in order, everything that is sent, asked and reported for it. |
| TcpTable.SegmentLeaves | crates/packet-engine/src/engine.rs:401-733 | A flow that survives a segment is left with exactly the state, the places in both streams and the unread bytes that the description gives. |
| EngineTable.EventExact | crates/packet-engine/src/engine.rs:401-1153 | In every run and for every flow, every event ends it, and makes the engine send, ask and report for it, exactly as a table says. |
| EngineTable.RecordExact | crates/packet-engine/src/engine.rs:401-1153 | In every run the record of a flow that survives an event is left as described: its state, its places in both streams, what it holds and the segment that waits. |
| EngineTable.SwitchesExact | crates/packet-engine/src/engine.rs:1090-1143 | In every run the engine accepts until it is stopped, sleeps from the first call that says so, and wakes up when told. |
| EngineTable.OtherPacketExact | crates/packet-engine/src/engine.rs:139-207 | A packet that is not TCP is blocked with its reason and changes nothing, except a DNS query for which there is a place, which is asked once and waits for its answer. |
| EngineTheorems.DnsQueriesExact | crates/packet-engine/src/engine.rs:617-654 | While a DNS flow lives, the queries asked are exactly the complete length-prefixed messages of the client stream up to the acknowledged point, and the buffer is the incomplete rest. |
| EngineTheorems.SegmentationIrrelevant | crates/packet-engine/src/engine.rs:534-560 | Two runs that have come equally far on the same stream have asked the same queries, however the stream was cut. |
| ClientCoreDns.DnsSegmentOutcome | crates/client-core/src/core.rs:173-193 | In every run, when the call for a segment of a live DNS flow is over, the flow still lives if and only if the segment completed no message, or exactly one whose answer is non-empty, within the limit and accepted: two messages in one segment always end the flow. |
| ClientCoreDns.AnswerOutcome | crates/packet-engine/src/engine.rs:947-1021 | A flow survives an answer if and only if the answer can be sent at once; then its segment is outstanding. |
| ClientCoreDns.TwoQueriesEnd | crates/packet-engine/src/engine.rs:617-654 | A run that shows it: a first segment with two queries ends its flow whatever the answers are. |
| ClientCoreDns.AnswersExact | crates/packet-engine/src/engine.rs:976-1018 | In every run what the application of a DNS flow has been given splits into exactly the answers sent to it, in order, with nothing left over. |
| EngineTheorems.RunInv | crates/packet-engine/src/engine.rs:139-1208 | Tables, sequence numbers and action history agree in every reachable state. |
| EngineTheorems.RunExtends | crates/packet-engine/src/engine.rs:139-1208 | What a flow has taken and been given only ever grows. |
| EngineRuns.NextGood | crates/packet-engine/src/engine.rs:139-1208 | Every call keeps that agreement and sends only packets that acknowledge what was taken and carry what was given. |
| TcpFlowTheorems.ExistingSane | crates/packet-engine/src/engine.rs:401-732 | A flow that survives a segment keeps its record invariant: stop and wait, bounded queues, incomplete DNS buffer. |
| TcpFlowTheorems.PayloadShape | crates/packet-engine/src/engine.rs:520-615 | After a segment that reaches its payload the flow is reset exactly when the payload follows a FIN or does not fit, and otherwise has advanced by exactly the bytes taken. |
| TcpFlowTheorems.ExistingEffect | crates/packet-engine/src/engine.rs:561-711 | The next expected number advances by the bytes taken and by one for a FIN taken, and the state follows; nothing else of the sequence state changes. |
| TcpFlowTheorems.ExistingFollows | crates/packet-engine/src/engine.rs:561-711 | The 32-bit sequence numbers follow what was really taken through every wrap-around. |
| TcpFlowTheorems.ExistingOnStream | crates/packet-engine/src/engine.rs:576-711 | A segment cut from the client stream extends what was taken only by the next bytes of the stream, and the FIN only at its end. |
| TcpFlowTheorems.ForwardedShape | crates/packet-engine/src/engine.rs:561-583 | An accepted payload is handed on before anything else is asked for, and nothing acknowledges it yet. |
| TcpFlowTheorems.QuietShape | crates/packet-engine/src/engine.rs:505-730 | A segment that forwards nothing asks for no stream work but a close; a removal always closes both directions. |
| TcpFlowTheorems.ExistingSpeaks | crates/packet-engine/src/engine.rs:421-730 | Whatever a segment makes the engine send acknowledges only what was taken and repeats only what is outstanding. |
| TcpFlowTheorems.EmitKeeps | crates/packet-engine/src/engine.rs:843-866 | A new segment starts where the last one ended and becomes the outstanding one. |
| TcpFlowTheorems.TickKeeps | crates/packet-engine/src/engine.rs:1046-1069 | A retransmission repeats the outstanding segment byte for byte and counts it. |
| TcpFlowTheorems.AtInjective | crates/packet-engine/src/engine.rs:1236-1238 | Within one turn of the 32-bit counter a sequence number fixes the position. |
| DnsStream.SplitConcat | crates/packet-engine/src/engine.rs:617-654 | Splitting a byte stream into messages can go on from the remainder. |
| DnsStream.ExistingAsksAll | crates/packet-engine/src/engine.rs:617-654 | A segment extends the queries exactly as it extends the stream. |
| EngineInvariant.InstallInv | crates/packet-engine/src/engine.rs:1191-1208 | Writing a flow back or removing it keeps the tables mutually inverse, identifiers fresh, pending queries owned by live DNS flows and all limits. |
| EngineCloses.FailMild | crates/packet-engine/src/engine.rs:917-944 | Failing a flow resets it, closes both directions and touches no other flow. |
| EngineCloses.CapacityExact | crates/packet-engine/src/engine.rs:796-869 | A read of a live flow is delivered without failing the flow if and only if it is within the read capacity. |
| EngineCloses.TickMild | crates/packet-engine/src/engine.rs:1024-1087 | The clock removes no flow without closing its stream and asks for no stream work. |
| EngineCloses.AnswersMild | crates/packet-engine/src/engine.rs:947-1021 | A DNS answer removes no flow without closing its stream and asks for at most three light actions. |
| EngineCloses.TookShape | crates/packet-engine/src/engine.rs:762-790 | A successful write empties the flow's queue; only a closing flow is dropped by it. |
| PacketProcessor.Processor.constructor | crates/packet-engine/src/engine.rs:98-110 | A new engine has no flows and accepts. |
| PacketProcessor.Processor.Create | crates/packet-engine/src/engine.rs:98-110 | An engine exists if and only if its limits are consistent. |
| PacketProcessor.Processor.ProcessPacket | crates/packet-engine/src/engine.rs:139-165 | Refines the packet step of the engine. |
| PacketProcessor.Processor.ProcessDatagram | crates/packet-engine/src/engine.rs:167-207 | Refines interception of DNS over UDP. |
| PacketProcessor.Processor.ProcessSegment | crates/packet-engine/src/engine.rs:209-262 | Refines dispatch of a TCP segment by flow table and flags. |
| PacketProcessor.Processor.OpenDns | crates/packet-engine/src/engine.rs:264-319 | Refines admission of a DNS flow. |
| PacketProcessor.Processor.OpenFlow | crates/packet-engine/src/engine.rs:321-399 | Refines admission of a forwarded flow. |
| PacketProcessor.Processor.ProcessExisting | crates/packet-engine/src/engine.rs:401-472 | Refines a segment on a known flow, handshake part. |
| PacketProcessor.Processor.ProcessSynchronized | crates/packet-engine/src/engine.rs:474-518 | Refines acknowledgement processing and the final close; what these do is stated by TcpTable.SegmentTells and TcpTable.SegmentLeaves. |
| PacketProcessor.Processor.ProcessStages | crates/packet-engine/src/engine.rs:520-732 | Refines payload, DNS loop, FIN and reset. |
| PacketProcessor.Processor.AcceptPayload | crates/packet-engine/src/engine.rs:520-615 | A payload resets the flow after its FIN or when it does not fit, is taken exactly when next in sequence, and is acknowledged at once unless it was handed on. |
| PacketProcessor.Processor.DrainBuffer | crates/packet-engine/src/engine.rs:617-654 | The loop takes exactly the complete messages there is room for and registers them under consecutive identifiers. |
| PacketProcessor.Processor.AcceptFin | crates/packet-engine/src/engine.rs:656-711 | Exactly a FIN next in sequence advances the record by one and shuts the direction; every packet sent for it acknowledges the new position; the flow ends gracefully exactly when the other direction had ended and nothing came with the FIN. |
| PacketProcessor.Processor.ProtectedStreamOpened | crates/packet-engine/src/engine.rs:735-759 | Refines the delayed SYN-ACK. |
| PacketProcessor.Processor.BytesForwarded | crates/packet-engine/src/engine.rs:762-790 | Refines releasing written bytes and the cumulative acknowledgement. |
| PacketProcessor.Processor.ProtectedReadCapacity | crates/packet-engine/src/engine.rs:796-813 | A non-empty payload is within the capacity if and only if the flow is known and accepts it. |
| PacketProcessor.Processor.PayloadReceived | crates/packet-engine/src/engine.rs:816-869 | Refines one new data segment or failure of the flow. |
| PacketProcessor.Processor.StreamFinished | crates/packet-engine/src/engine.rs:872-914 | Refines the FIN towards the application or failure of the flow. |
| PacketProcessor.Processor.FailOne | crates/packet-engine/src/engine.rs:917-944 | Refines failing one flow. |
| PacketProcessor.Processor.DnsCompleted | crates/packet-engine/src/engine.rs:947-1021 | Refines delivering a DNS answer. |
| PacketProcessor.Processor.OnTick | crates/packet-engine/src/engine.rs:1024-1087 | Refines deadlines and retransmission in any order of the flow table. |
| PacketProcessor.Processor.WalkFlows | crates/packet-engine/src/engine.rs:1030-1073 | One walk updates every record as the clock demands and collects what to send and to fail. |
| PacketProcessor.Processor.ResumeAt | crates/packet-engine/src/engine.rs:1098-1127 | Refines waking up: shifted deadlines, or every flow failed. |
| PacketProcessor.Processor.ShutDown | crates/packet-engine/src/engine.rs:1130-1142 | Refines stopping. |
| PacketProcessor.Processor.FailEverything | crates/packet-engine/src/engine.rs:1145-1153 | Refines failing every flow. |
| PacketProcessor.Processor.RemoveFlow | crates/packet-engine/src/engine.rs:1199-1208 | A removal takes the record, its identifier and its pending queries. |
| ClientCoreTheorems.AcksOnlyWritten | crates/client-core/src/core.rs:132-222 | In every run, when a packet without RST of a forwarded flow goes out, every byte ever taken on that flow has been written completely, and the acknowledgement covers at most those bytes and the FINs taken, whichever writes failed. |
| ClientCoreTheorems.StreamsBelong | crates/client-core/src/core.rs:140-211 | At the end of every call each stream held by the dispatcher belongs to a live flow that is not DNS. |
| ClientCoreTheorems.GatewayQueuesEmpty | crates/packet-engine/src/engine.rs:762-790 | At the end of every call no live flow has bytes queued for the gateway. |
| ClientCoreTheorems.PerformShrinks | crates/client-core/src/core.rs:139-220 | Performing an action lowers the weight of the queue, so every call ends. |
| ClientCoreTheorems.WrittenPrefix | crates/client-core/src/dispatcher.rs:189-227 | End to end: at every moment the bytes a protected stream has accepted are a prefix of what the client sent, whichever segments are repeated and whichever writes fail. |
| ClientCoreTheorems.CoreRunInv | crates/client-core/src/core.rs:132-296 | The invariant joining engine, work queue and streams holds in every reachable state. |
| ClientCoreInvariant.PerformKeeps | crates/client-core/src/core.rs:140-219 | Performing any queued action keeps it, whatever the gateway does. |
| ClientCoreInvariant.CallKeeps | crates/client-core/src/core.rs:82-97 | Every call of the core starts it anew. |
| ClientCoreInvariant.AbandonKeeps | crates/client-core/src/core.rs:164-171 | A failed action discards the queue without losing a close that a stream still needs. |
| Dispatcher.WriteAllComplete | crates/client-core/src/dispatcher.rs:211-227 | A write that reports success has written the whole payload after everything before. |
| ConnectionDispatcher.StreamTable.constructor | crates/client-core/src/dispatcher.rs:115-129 | An empty stream table that accepts. |
| ConnectionDispatcher.StreamTable.OpenStream | crates/client-core/src/dispatcher.rs:147-186 | A stream is added only below both limits, once, and when the gateway agrees. |
| ConnectionDispatcher.StreamTable.WriteFully | crates/client-core/src/dispatcher.rs:189-227 | The loop over partial writes accepts exactly the bytes the transport took, and succeeds only when all were taken and flushed. |
| ConnectionDispatcher.StreamTable.CloseWrites | crates/client-core/src/dispatcher.rs:275-285 | Later writes on the stream fail; an unknown stream is an error. |
| ConnectionDispatcher.StreamTable.CloseStream | crates/client-core/src/dispatcher.rs:288-294 | A stream and its mark are removed, idempotently. |
| ConnectionDispatcher.StreamTable.CloseEverything | crates/client-core/src/dispatcher.rs:317-332 | Every stream is removed and no new one accepted. |
| ConnectionDispatcher.StreamTable.ReplaceWith | crates/client-core/src/dispatcher.rs:308-314 | A new session starts with an empty table. |
| CoreRuntime.Runtime.constructor | crates/client-core/src/core.rs:65-79 | A core around a new engine and an empty table satisfies the invariant. |
| CoreRuntime.Runtime.Execute | crates/client-core/src/core.rs:132-222 | The loop over the work queue ends, performs exactly the machine's steps, and keeps the invariant. |
| CoreRuntime.Runtime.PerformFirst | crates/client-core/src/core.rs:140-219 | One turn of the loop is one step of the machine. |
| CoreRuntime.Runtime.HandlePacket | crates/client-core/src/core.rs:82-97 | A packet call ends in a quiet state of the machine. |
| CoreRuntime.Runtime.PumpFlow | crates/client-core/src/core.rs:225-238 | A read within both limits, an end or a failure reaches the engine; without capacity nothing happens. |
| CoreRuntime.Runtime.OnClock | crates/client-core/src/core.rs:241-244 | A clock call ends in a quiet state. |
| CoreRuntime.Runtime.WakeUp | crates/client-core/src/core.rs:252-255 | A wake-up call ends in a quiet state. |
| CoreRuntime.Runtime.PathWasLost | crates/client-core/src/core.rs:258-263 | Every flow fails and every stream is dropped. |
| CoreRuntime.Runtime.Reconnect | crates/client-core/src/core.rs:266-276 | The same, then a fresh table for the new session. |
| CoreRuntime.Runtime.ShutDown | crates/client-core/src/core.rs:289-294 | Stopping fails every flow and drops every stream. |
| ClientCoreStreams.WriteExact | crates/client-core/src/dispatcher.rs:189-227 | A payload may be written only if it is no longer than a chunk and its stream is open for writing; then a front part is written, as long as the writes that counted, and it succeeds if and only if that is all and the flush succeeds. |
| ClientCoreStreams.StreamsInOrder | crates/client-core/src/dispatcher.rs:147-186 | In every run there are never more streams than the core and the session permit, every mark belongs to a stream, and a table that does not accept has none. |
| ClientCoreStreams.DroppedStays | crates/client-core/src/dispatcher.rs:308-332 | After all streams were dropped no stream comes up and nothing is written until the session is replaced. |
| ClientCoreStreams.NothingAfterClose | crates/client-core/src/dispatcher.rs:275-285 | From the moment the direction to the gateway is closed, a stream that stays open is written nothing more. |
| ClientCoreStreams.EverythingReported | crates/client-core/src/core.rs:132-222 | In every run in which no action fails the caller is handed everything the engine says for it, each once and in order. |
| Framing.ChunkingIrrelevant | crates/gateway-protocol/src/framing.rs:60-127 | Any division of a byte stream into chunks yields the frames and the first error of repeated one-shot reads; only when exactly five continued prefix bytes are left does the error wait. |
| Framing.DelayedError | crates/gateway-protocol/src/framing.rs:63-67 | The error that waited comes with the next byte, whatever it is. |
| Framing.DecoderIsReader | crates/gateway-protocol/src/framing.rs:162-195 | Fed whole, the decoder agrees with the one-shot reader in the same sense. |
| Framing.BufferBounded | crates/gateway-protocol/src/framing.rs:56-58 | Never more than five bytes and one frame maximum are buffered. |
| Framing.FramesRoundTrip | crates/gateway-protocol/src/framing.rs:129-146 | Frames written one after the other come back whole and in order, however the bytes are delivered. |
| FrameDecoder.Incremental.constructor | crates/gateway-protocol/src/framing.rs:31-40 | A decoder waiting for a prefix. |
| FrameDecoder.Incremental.Create | crates/gateway-protocol/src/framing.rs:215-220 | A decoder exists if and only if its maximum is permitted. |
| FrameDecoder.Incremental.SetMaximum | crates/gateway-protocol/src/framing.rs:42-54 | A new maximum is refused exactly when it is not permitted or an announced body exceeds it. |
| FrameDecoder.Incremental.Push | crates/gateway-protocol/src/framing.rs:60-119 | The bulk push is feeding byte by byte until the first frame or error; it always progresses and stays within the buffer bound. |
| FrameDecoder.Incremental.Consume | crates/gateway-protocol/examples/orp-dump.rs:10-25 | The driving loop uses up the chunk and yields all its frames or the first error. |
| FrameDecoder.ReadFrame | crates/gateway-protocol/src/framing.rs:162-195 | The one-shot reader in its own loop form. |
| FrameDecoder.PushFeeds | crates/gateway-protocol/src/framing.rs:60-119 | Feeding everything is pushing again and again. |
| Varint.DecodeEncode | crates/gateway-protocol/src/framing.rs:222-253 | Decoding inverts encoding for every 32-bit value. |
| Varint.EncodeDecode | crates/gateway-protocol/src/framing.rs:230-253 | Any accepted byte string is exactly the encoding of its value. |
| Varint.EncodeVarint | crates/gateway-protocol/src/framing.rs:222-228 | The shifting loop appends the encoding. |
| Varint.DecodeVarint | crates/gateway-protocol/src/framing.rs:230-253 | The loop accepts and refuses as the decoder does. |
| PrefixReaders.ReadProtocolPrefix | crates/gateway-protocol/src/framing.rs:167-189 | Accepts exactly the canonical encodings of the lengths from one to the limit. |
| PrefixReaders.ReadDaemonPrefix | crates/gateway-daemon/src/protocol.rs:1040-1077 | The separately written reader of the daemon accepts exactly the canonical encodings of the lengths from one to the limit that five bytes can carry, for any limit. |
| PrefixReaders.ReadMultihopPrefix | crates/gateway-multihop/src/protocol.rs:871-887 | And so does the multihop reader. |
| PrefixReaders.ReadersAgree | crates/gateway-multihop/src/protocol.rs:1154-1185 | With the same limit the first and third reader accept the same prefixes with the same lengths, and the reader of the daemon exactly those of them that five bytes can carry: all of them when the limit is below 2^32. |
| DnsCacheTheorems.RunInv | crates/dns-engine/src/lib.rs:113-201 | In every run the two maps are inverse to each other, the list is the cached names ordered by last use without repetition, and the size stays within the limit. |
| DnsCacheTheorems.RunEvictsLeastRecent | crates/dns-engine/src/lib.rs:177-184 | Every evicted name was used before every name that stays. |
| DnsCacheTheorems.ExhaustedIff | crates/dns-engine/src/lib.rs:170-201 | Resolving reports exhaustion if and only if the name is not cached, the limit is above 130048 and all 130048 usable addresses are mapped to unexpired names. |
| DnsCacheTheorems.RunNeverExhausted | crates/dns-engine/src/lib.rs:48-53 | Within a limit of 130048 names no run ever reports exhaustion. |
| DnsCacheTheorems.RunExhausts | crates/dns-engine/src/lib.rs:48-53 | With every permitted limit above 130048 some run ends with a name that finds the pool exhausted. |
| DnsCacheTheorems.AllocateFailsIff | crates/dns-engine/src/lib.rs:522-538 | Allocation fails exactly when every usable address is taken. |
| DnsCacheTheorems.WalkVisits | crates/dns-engine/src/lib.rs:522-531 | One search visits every pool address exactly once. |
| DnsCacheTheorems.UsableCount | crates/dns-engine/src/lib.rs:26-27 | The pool has exactly 130048 usable addresses. |
| DnsCacheTheorems.AddressStays | crates/dns-engine/src/lib.rs:113-201 | In every run the address given for a name leads back to it and is given for it again until the name is evicted or expires, whatever happens in between. |
| DnsCacheTheorems.NothingStale | crates/dns-engine/src/lib.rs:507-520 | In every run a lookup gives a name only if the request that allocated the address came less than the time to live before. |
| DnsCacheTheorems.AskRenews | crates/dns-engine/src/lib.rs:170-201 | A name asked for after its time, or for the first time, gets a mapping that lasts for the time to live from then on; one asked for in time keeps its mapping. |
| DnsCacheTheorems.AddressesGoRound | crates/dns-engine/src/lib.rs:522-538 | In every run a new address is the first that is free when one goes round the pool from behind the address allocated last. |
| DnsCache.ResolveInv | crates/dns-engine/src/lib.rs:170-201 | Resolving keeps the cache invariant. |
| DnsCache.LookupInv | crates/dns-engine/src/lib.rs:113-120 | Looking up keeps the cache invariant. |
| SyntheticDns.SyntheticCache.constructor | crates/dns-engine/src/lib.rs:100-105 | An empty cache. |
| SyntheticDns.SyntheticCache.GetOrAllocate | crates/dns-engine/src/lib.rs:170-201 | Refines resolving: purge, touch or evict and allocate. |
| SyntheticDns.SyntheticCache.LookupHostname | crates/dns-engine/src/lib.rs:113-120 | Refines the reverse lookup. |
| SyntheticDns.SyntheticCache.PurgeExpired | crates/dns-engine/src/lib.rs:507-520 | Removing names one by one in any order leaves exactly the names whose time is not over, with their mappings, in both maps and the list. |
| SyntheticDns.SyntheticCache.MakeRoom | crates/dns-engine/src/lib.rs:177-184 | The loop drops from the front until one more name fits. |
| SyntheticDns.SyntheticCache.AllocateAddress | crates/dns-engine/src/lib.rs:522-538 | The loop returns the first free address from the cursor on. |
| SyntheticDns.SyntheticCache.Touch | crates/dns-engine/src/lib.rs:540-543 | The name moves to the back of the list. |
| SyntheticDns.SyntheticCache.IdentityReset | crates/dns-engine/src/lib.rs:132-134 | A reset leaves a fresh cache. |
| FlowCredit.NoUnderflow | crates/gateway-daemon/src/protocol.rs:831-862 | In every interleaving of grants with the reader's atomic steps the counter is never below the permits and never lowered below zero. |
| FlowCredit.CreditConserved | crates/gateway-daemon/src/protocol.rs:874-925 | Unless the reader failed, initial plus granted credit equals outstanding plus held plus forwarded. |
| FlowCredit.CreditBounded | crates/gateway-daemon/src/protocol.rs:831-841 | Outstanding and held credit never exceed the maximum by more than one data chunk. |
| FlowCredit.WaitsOnlyWhenEmpty | crates/gateway-daemon/src/protocol.rs:843-855 | The reader waits for permits only when there are none at all. |
| FlowCredit.GrantExact | crates/gateway-daemon/src/protocol.rs:831-841 | A grant counts in full if and only if the counter stays within the maximum, and otherwise not at all. |
| FlowCredit.LookExact | crates/gateway-daemon/src/protocol.rs:843-855 | The reader asks for everything there is, but for no more than a chunk, and for one permit when there is none. |
| FlowCredit.NextInv | crates/gateway-daemon/src/protocol.rs:831-925 | Every atomic step keeps counter and semaphore apart by exactly the half-done steps. |
| QuotaRuns.GrantedSinceCreation | crates/gateway-multihop/src/quota.rs:77-166 | In every run, while the record of an entry is kept, the bytes granted since its creation are at most the burst plus the rate times the time elapsed. |
| QuotaRuns.GrantedInInterval | crates/gateway-multihop/src/quota.rs:153-166 | In any interval of a run in which the record is kept, the bytes granted exceed the burst by at most the rate times the interval and ten milliseconds. |
| QuotaRuns.GrantedEver | crates/gateway-multihop/src/quota.rs:123-166 | In every run the bytes granted to an entry are at most one burst for every record it has had plus the rate times the time elapsed. |
| QuotaRuns.BurstTwice | crates/gateway-multihop/src/quota.rs:137-151 | A run that meets the bound with two records: dropping the last permit and connecting again grants the burst twice at the same instant. |
| QuotaRuns.ChargeExact | crates/gateway-multihop/src/quota.rs:123-166 | In every run a charge is granted if and only if the account holds the bytes, counting all that the rate has earned since it was topped up, up to the burst; it then holds that much less. |
| QuotaRuns.FillsUp | crates/gateway-multihop/src/quota.rs:153-166 | An account that is left alone fills up: a charge within the burst and within what the rate has earned meanwhile is granted. |
| QuotaRuns.ConnectExact | crates/gateway-multihop/src/quota.rs:77-103 | In every run a connection is let in if and only if the manager is not draining, the entry is present or there is room for one, and it has fewer connections than it may have. |
| QuotaRuns.OpenExact | crates/gateway-multihop/src/quota.rs:105-121 | In every run a session is let in if and only if the manager is not draining, the entry is present, and it has fewer sessions than it may have. |
| QuotaRuns.DrainsExact | crates/gateway-multihop/src/quota.rs:69-75 | The manager drains exactly when the last such request said so. |
| QuotaManager.RunInv | crates/gateway-multihop/src/quota.rs:77-151 | In every run each record counts its live permits exactly and exists exactly while it has some, so no release underflows and all limits hold. |
| QuotaManager.EntryQuotaManager.constructor | crates/gateway-multihop/src/quota.rs:51-67 | A manager without records. |
| QuotaManager.EntryQuotaManager.Create | crates/gateway-multihop/src/quota.rs:51-67 | A manager exists if and only if no limit is zero. |
| QuotaManager.EntryQuotaManager.AcquireConnection | crates/gateway-multihop/src/quota.rs:77-103 | Refines admission of a connection. |
| QuotaManager.EntryQuotaManager.AcquireSession | crates/gateway-multihop/src/quota.rs:105-121 | Refines admission of a session. |
| QuotaManager.EntryQuotaManager.ChargeBytes | crates/gateway-multihop/src/quota.rs:123-166 | Refines refilling and charging; what an account holds is stated by QuotaRuns.ChargeExact. |
| QuotaManager.EntryQuotaManager.ReleasePermit | crates/gateway-multihop/src/quota.rs:137-151 | Refines dropping a permit and, with the last one, the record. |
| GatewayDns.QueryRoundTrip | crates/gateway-daemon/src/dns.rs:301-355 | For every canonical hostname the built query validates back to the same id and name with all bytes consumed, if and only if it has at most sixteen labels and fits the limit. |
| GatewayDns.SeventeenLabels | crates/gateway-daemon/src/dns.rs:507-516 | A canonical name of seventeen labels is refused. |
| GatewayDns.EncodeNameLoop | crates/gateway-daemon/src/dns.rs:313-324 | The loop appends the wire form or refuses an empty or long label. |
| DnsNames.ReadNameMeans | crates/gateway-daemon/src/dns.rs:507-563 | On any message a name that is read ends inside it and is made of at most sixteen valid lower-case labels of at most 253 bytes together. |
| DnsNames.ReadNameLoop | crates/gateway-daemon/src/dns.rs:507-563 | The cursor loop with pointers and visited set reads as specified. |
| DnsRoutes.ReadNameExact | crates/gateway-daemon/src/dns.rs:507-563 | A name is read at a place of any message if and only if the message spells it there: labels along a route of pointers that visits no place twice, to a zero byte, and the end is behind the first pointer or the zero byte. |
| DnsQueries.ValidateExact | crates/gateway-daemon/src/dns.rs:332-376 | A client query is accepted as a question if and only if it is within the size, is a query with exactly one question and no other records that ends with the question, and its name has a canonical form. |
| DnsQueries.CanonicalExact | crates/gateway-daemon/src/acl.rs:137-158 | A hostname has a canonical form if and only if, without a final dot, it has one to 253 bytes, is no address literal and consists of labels; the form is then the hostname in small letters. |
| DnsQueries.LabelExact | crates/gateway-daemon/src/acl.rs:145-157 | A label is one to sixty-three letters, digits and hyphens, with no hyphen at either end. |
| DnsQueries.CaseIrrelevant | crates/gateway-daemon/src/acl.rs:137-158 | Letters of either case spell the same canonical name. |
| DnsQueries.FinalDotIrrelevant | crates/gateway-daemon/src/acl.rs:137-158 | One dot at the end makes no difference. |
| DnsQueries.CanonicalFixed | crates/gateway-daemon/src/acl.rs:137-158 | A canonical form is its own canonical form and has no final dot. |
| DnsNames.SplitJoin | crates/gateway-daemon/src/acl.rs:145-157 | Joining labels and splitting at the dots is the identity. |
| DnsResponse.ChaseIff | crates/gateway-daemon/src/dns.rs:457-504 | The alias chase succeeds if and only if, going from a name without addresses over its only CNAME record, the question leads within sixteen hops to a name with addresses or without aliases; it returns exactly the addresses that name owns and the number of hops. |
| DnsResponse.NoReturn | crates/gateway-daemon/src/dns.rs:457-463 | A chain that ends never comes back to a name. |
| DnsResponse.AliasesExact | crates/gateway-daemon/src/dns.rs:480-487 | The aliases of a name are exactly the targets of the CNAME records it owns. |
| DnsResponse.AddressesInOrder | crates/gateway-daemon/src/dns.rs:464-471 | Addresses appear once for each record, in the order of the message. |
| DnsResponse.AliasesInOrder | crates/gateway-daemon/src/dns.rs:480-487 | And so do aliases. |
| DnsMessages.ReadOneExact | crates/gateway-daemon/src/dns.rs:408-452 | A record is read at a place if and only if the message holds it there: its owner, type, class and length, and data of the form of the type. |
| DnsMessages.RecordsSound | crates/gateway-daemon/src/dns.rs:378-455 | Every response that is read has the id, the flags, the question and the announced records one after the other to its end, and what is kept is its answer records and all addresses. |
| DnsMessages.RecordsComplete | crates/gateway-daemon/src/dns.rs:378-455 | And every message of this form is read, and its records are found. |
| DnsResponse.ResponseSound | crates/gateway-daemon/src/dns.rs:378-505 | A parsed response names the end of the alias chain; its addresses are exactly those the end owns, and all of them were checked. |
| DnsResponse.AddressesExact | crates/gateway-daemon/src/dns.rs:464-471 | Every returned address belongs to a record of the terminal name, and every such record is returned. |
| DnsResponse.ChaseLoop | crates/gateway-daemon/src/dns.rs:457-504 | The loop with its visited set computes the chase that DnsResponse.ChaseIff describes. |
| DnsResponse.ReadAllRecords | crates/gateway-daemon/src/dns.rs:409-452 | The loop reads exactly the announced records and keeps those of the answer section. |

## Left out

- The session handshake, domain resolution messages, capabilities other than TCP and credits, and idle expiry of streams: sessions start established.
- Protobuf field encoding and the envelope scan: a frame body is opaque and its decoding is a parameter.
- TLS, signatures, random numbers, sockets, tasks and wakers; cancellation appears as an operation that fails.
- Policy evaluation, route selection, hostnames and application tags in flow records; a route is the policy's decision.
- Metrics and the kinds of dispatcher and resolver errors; a refused operation is refused, whatever its code.
- EngineTheorems.RunInv: flow and DNS identifiers do not wrap around, because 2^64 of them are never given out.
- PacketProcessor.Processor.ProcessExisting: flow records are values in a map that is written back, so changing a record through a reference is not modelled.
- FlowCredit.CreditConserved: a failed reader keeps the credit it held, as the program does.
- QuotaRuns.GrantedEver: calls are serialised, as the mutex ensures, and the clock does not go backwards.
- PacketTheorems.TcpCorruptionDetected: changes of the IPv4 header are not covered.
- PacketTheorems.UdpByteAcceptedIff: changes of the UDP length field, after which the checksum is taken over other bytes, are not covered.
- SyntheticDns.SyntheticCache.GetOrAllocate: parsing and building of the DNS messages around the cache.
- DnsResponse.ResponseSound: the second lookup and the access-list check of the returned addresses.
- Access lists, configuration validation, the client state table, gateway route scoring, the connection pool limiter and the floating-point rate limiter: each claim is settled by one branch.
- The Tor circuit manager, the directory client, the FFI layer, the mobile clients and the deployment scripts.
