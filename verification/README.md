# libreatrust, verified

A Dafny 4.11 model of the core of libreatrust, a client for a tunnelling
protocol, with proofs of what its hard parts promise. `dafny verify
dfyconfig.toml` checks everything.

## What is modelled

**Tunnel transport.** `Transport` is the byte stream under a tunnel: a finite
script of chunks, timeouts and failures, so a contract proved for every script
holds for every schedule of short reads. `TcpFraming` is the length-framed TCP
stream on top of it and `TcpTunnel` the queue and leftover buffer through which
a reader is served; together they deliver exactly the bytes the peer wrote.
`TcpWorker` and `L3Worker` are the two single-threaded workers fed by a command
queue and a wake socket, and `Conntrack` is the authorisation protocol between
packet writers and the worker, including shutdown. These three are state
machines whose steps are the code's atomic actions; what they state holds in
every state any interleaving can reach. `TcpProgress`, `L3Progress` and
`ConntrackWaiters` say when their calls come to an end and what can keep them
waiting. `L3Frames` is the frame reader of the L3 stream and the packets it hands
on, `L3Envelope` their data envelopes, and `Checksum` and `Packets` are the
Internet checksum and the IPv4/UDP/ICMP packets.

**Routing and its compiled form.** `Router` is the scan over rules, `Pac` the
tables and the label-by-label lookup of the PAC script, which must agree with it.

**Local proxy.** `Socks5` reads CONNECT requests, `HttpText` and `HttpProxy`
read and rewrite HTTP requests, `DnsCache` is the answer cache, and
`ProxyAccounting` counts connections across the listener, the connection threads
and a `stop` call.

**Login.** `Login` runs the session's calls against an arbitrary server.

**Log.** `CivilDate` compares the fast date arithmetic with the Gregorian
calendar, `LogRotation` follows the log file over whole runs.

`Bytes`, `Text` and `Options` hold what the others share.

## What turned out false, and when

- A PAC script loses a rule whose key is `__proto__`: an object literal gives
  itself no such property. `Pac.ProtoRuleIsMissed` shows the lost rule,
  `Pac.ProxiedExactly` and `Pac.WalkIsDomainManaged` say exactly what is found,
  and `Pac.MissesNothing` holds for every rule set without that key.
- Shutdown can leave a waiter to its timeout: a second writer may find a flow
  through `by_key` before its creator has put it in `by_id`.
  `ConntrackWaiters.UnregisteredWaiterIsStranded` is such a run, and
  `ConntrackWaiters.RegisteredBeforeAcceptanceIsStranded` one in which the flow is
  in `by_id` before its request is accepted. `Conntrack.ShutdownReleasesWaiters`
  says that exactly the flows collected from `by_id` are settled, and that a flow
  registered when its request passed the close-flag check is one of them.
- An open remote can leave a waiter to its timeout too: a writer that claims a
  flow and fails before its request is accepted leaves the claim behind
  (`ConntrackWaiters.AbandonedClaimStrandsWriters`). A waiter has a request
  accepted, or one still to come, or such a flow, exactly one of the three
  (`ConntrackWaiters.WaiterHasExactlyOne`), and on such a flow no request is ever
  accepted (`ConntrackWaiters.UnaskedForever`).
- A write behind a Close gets its error only when the worker is gone, and `close`
  waits for that too, so both can hang: a worker reads a frame to its end once it
  has begun, whatever the timeouts. `TcpProgress.UnfinishedFrameHangsCalls` and
  `L3Progress.UnfinishedFrameHangsClose` are such runs;
  `TcpProgress.HangsExactly` and `L3Progress.CloseHangsExactly` say that an
  unfinished frame is the only cause.
- `stop` can wait without end: for a listener that was not woken, for the client
  of a connection the sweep missed because it was registered after it or its
  socket could not be cloned, for a remote a connection's thread waits for, the
  client's socket shut or not, and for the node of the keepalive tunnel.
  `ProxyAccounting.HeldExactly` says that nothing else holds it; beside it stand a
  run for the listener, two for the client, and one each for remote and node.
- A log file can outgrow its limit, when the rename of a due rotation fails
  (`LogRotation.FailedRenameOvergrows`) and when a write fails part way, which
  leaves the tracked size behind (`LogRotation.PartialWriteOvergrows`).
  `LogRotation.BoundExactly` is the exact condition for one append,
  `LogRotation.RunWithin` the one for whole runs.
- A length-framed envelope can read as an IP packet: `L3Envelope.MistakenToken`
  gives a token for each length from 69 to 79 and from 96 to 111,
  `L3Envelope.MistakenExactly` the exact condition, and
  `L3Envelope.PrintableToken` says that printable tokens are safe.
- A domain can be managed and no port of it: `Router.InvertedRange` and
  `Router.ManagedOnSomePort`.

## Model

| member | source | states |
|---|---|---|
| Transport.Stream.Read | crates/libreatrust-core/src/transport.rs:1469-1488 | one read takes a non-empty piece off the front of the arriving bytes, or reports a timeout, the end or an error, and shrinks what is left |
| Transport.Stream.ReadTunnelExact | crates/libreatrust-core/src/transport.rs:1466-1491 | success returns the next n arriving bytes and leaves the rest; it gives up only on a timeout before the first byte, and then nothing is consumed; each error is the one the end of the stream calls for |
| Transport.Stream.ReadTunnelExactBlocking | crates/libreatrust-core/src/transport.rs:1493-1496 | it succeeds exactly when n bytes arrive, whatever the timeouts |
| TcpFraming.Wire.WriteTcpPayload | crates/libreatrust-core/src/transport.rs:1367-1380 | the full length is reported exactly when the transport takes every frame and flushes; the wire grows by the frames, or by the part of them the transport took |
| Transport.Stream.ReadBody | crates/libreatrust-core/src/transport.rs:1388-1394 | a body with a two-byte length is read as it stands in the arriving bytes, with the error of a short stream |
| TcpFraming.ReadTcpFrame | crates/libreatrust-core/src/transport.rs:1382-1464 | unless no input waits, the result is the next frame of the arriving bytes and the stream is left right behind it; a timeout inside a frame changes nothing |
| TcpFraming.ReadAfter | crates/libreatrust-core/src/transport.rs:1387-1463 | what follows each header is consumed to its end, and errors are those of the header |
| TcpFraming.DecodeDataFrame | crates/libreatrust-core/src/transport.rs:1371-1395 | a written frame decodes to its chunk and consumes itself exactly |
| TcpFraming.DecodeControl | crates/libreatrust-core/src/transport.rs:1396-1463 | every control frame a server may send between data frames is skipped as a whole |
| TcpFraming.PayloadFramed | crates/libreatrust-core/src/transport.rs:1367-1395 | decoding the frames of a payload of any length gives the payload back |
| TcpFraming.PayloadOfSerialized | crates/libreatrust-core/src/transport.rs:1367-1464 | for every sequence of writes with accepted control frames between them, the decoded stream is the written bytes in order |
| TcpTunnel.Tunnel.constructor | crates/libreatrust-core/src/transport.rs:110-117 | a new tunnel owes its reader everything that will arrive |
| TcpTunnel.Tunnel.DrainOne | crates/libreatrust-core/src/transport.rs:251-265 | one pass moves the next frame to the queue without losing, adding or reordering a byte; it stops alive only on a timeout at a frame boundary |
| TcpTunnel.Tunnel.Drain | crates/libreatrust-core/src/transport.rs:243-271 | draining changes nothing that is owed to the reader; a worker still alive has consumed whole frames and met a timeout right behind them, otherwise the error that ends it is last in the queue |
| TcpTunnel.Tunnel.Read | crates/libreatrust-core/src/transport.rs:120-150 | a read hands out the next owed bytes, at most as many as asked for; exactly when it waits, fails or only serves the leftover buffer |
| TcpTunnel.Tunnel.Run | crates/libreatrust-core/src/transport.rs:120-271 | over every interleaving of frames moved by the worker and reads of any size, delivered bytes followed by owed ones are unchanged |
| TcpTunnel.ReceiveAll | crates/libreatrust-core/src/transport.rs:120-271 | after any such run, reading on to the end delivers exactly the payload of the arriving bytes |
| TcpTunnel.WrittenIsReceived | crates/libreatrust-core/src/transport.rs:1367-1464 | the payload of a stream a peer wrote is what the peer wrote |
| TcpTunnel.ReceiveWritten | crates/libreatrust-core/src/transport.rs:120-271 | for every sequence of writes and accepted control frames, every schedule of the stream and every sequence of reads the reader gets exactly the written bytes |
| TcpWorker.StepKeeps | crates/libreatrust-core/src/transport.rs:152-302 | every step of writers, closers, worker and network keeps the invariant linking queue, wire, wake bytes, calls, closers and the read-ahead buffer |
| TcpWorker.WireFollowsQueue | crates/libreatrust-core/src/transport.rs:278-302 | the wire is the frames of the commands carried out in queue order, at most one close frame and nothing behind it, and a torn piece, possibly whole, only after a failed write or flush |
| TcpWorker.WriteOutcome | crates/libreatrust-core/src/transport.rs:152-167 | a write returns Ok exactly when its command was carried out, with its full length, its frames standing together on the wire |
| TcpProgress.BehindClose | crates/libreatrust-core/src/transport.rs:169-178 | a write queued behind Close is never sent; once the worker is gone its call can return with an error, and when calls and worker have done all they can it has returned if and only if the worker is not held in an unfinished frame |
| TcpWorker.NoCommandStranded | crates/libreatrust-core/src/transport.rs:208-241 | a worker about to wait on a non-empty queue has an unread wake byte or a sender about to write one; it has nothing left in the read-ahead buffer, whatever came with the connect status, and any whole record on the socket ends the wait |
| TcpProgress.HangsExactly | crates/libreatrust-core/src/transport.rs:152-271 | when calls and worker have done all they can, a write or close is unfinished if and only if the worker is held in an unfinished frame with a command behind it |
| TcpProgress.CallShortens | crates/libreatrust-core/src/transport.rs:152-178 | a call takes at most four steps, and no step of anyone else sets it back |
| TcpProgress.WorkerRunsEnd | crates/libreatrust-core/src/transport.rs:193-302 | in every run the worker takes no more steps of its own than its work at the start and what calls and network add allow, so it comes to its Close or to rest in a frame |
| TcpProgress.UnfinishedFrameHangsCalls | crates/libreatrust-core/src/transport.rs:1466-1496 | a run in which an unfinished frame keeps a write behind a Close and the close itself waiting |
| L3Worker.StepKeeps | crates/libreatrust-core/src/transport.rs:2376-2527 | every step of senders, network and worker, failing writes included, keeps the invariant on wake bytes, the read-ahead buffer and frame boundaries |
| L3Worker.NothingStranded | crates/libreatrust-core/src/transport.rs:2387-2444 | whatever the handshake left in the read-ahead buffer, an L3 worker about to wait has a wake coming for a non-empty queue, is at a frame boundary and has nothing left in that buffer |
| L3Worker.MustReadFirst | crates/libreatrust-core/src/transport.rs:2387-2389 | a worker that did not read before its first wait would wait with the handshake's leftover in its buffer |
| L3Progress.CloseHangsExactly | crates/libreatrust-core/src/transport.rs:2153-2168 | when senders and worker have done all they can, the worker of a closed remote has stopped if and only if it is not held in an unfinished frame, and a running worker has commands left only if it is |
| L3Progress.WorkerRunsEnd | crates/libreatrust-core/src/transport.rs:2376-2527 | in every run the L3 worker takes no more steps of its own than its work at the start and what the others add allow |
| L3Progress.UnfinishedFrameHangsClose | crates/libreatrust-core/src/transport.rs:1466-1496 | a run in which an unfinished frame keeps a close waiting for the worker |
| Conntrack.StepKeeps | crates/libreatrust-core/src/transport.rs:1989-2248 | every step of writers, worker and server keeps the authorisation invariant |
| Conntrack.AuthorisationSafe | crates/libreatrust-core/src/transport.rs:2170-2229 | auth ids are unique, by_id maps each to the flow carrying it, each flow has at most one request on the channel, an Ok result has a non-empty token the server returned for that id, and no call ends with "missing connect token" |
| Conntrack.ShutdownReleasesWaiters | crates/libreatrust-core/src/transport.rs:2340-2374 | once the worker is gone exactly the flows fail_pending collected are settled, and one in by_id when its request passed the close-flag check is among them, so its waiter can return |
| Conntrack.SettledStays | crates/libreatrust-core/src/transport.rs:2014-2029 | no step unsettles a result and fail_pending never overwrites one |
| ConntrackWaiters.UnregisteredWaiterIsStranded | crates/libreatrust-core/src/transport.rs:1989-2008 | a run in which a flow found by key before it is in by_id is left without a result |
| ConntrackWaiters.RegisteredBeforeAcceptanceIsStranded | crates/libreatrust-core/src/transport.rs:2240-2248 | a run in which a flow in by_id before its request is accepted, but not at the close-flag check, is left without a result |
| ConntrackWaiters.WaiterHasExactlyOne | crates/libreatrust-core/src/transport.rs:2197-2238 | a waiter's flow has a request accepted, or one still to come from a call that can take its next step, or neither and nothing coming, exactly one of the three |
| ConntrackWaiters.UnaskedForever | crates/libreatrust-core/src/transport.rs:2197-2238 | once a flow has nothing coming, no run has a request for it accepted |
| ConntrackWaiters.SettledOnlyBy | crates/libreatrust-core/src/transport.rs:2014-2029 | only the worker's handling of an answer for the flow or fail_pending gives it a result |
| ConntrackWaiters.AbandonedClaimStrandsWriters | crates/libreatrust-core/src/transport.rs:2197-2238 | a run on an open remote in which a claim given up before its request was accepted leaves a later writer to its timeout |
| L3Envelope.BuildDataPayload | crates/libreatrust-core/src/transport.rs:2953-2970 | the buffer the loop fills is the envelope behind its two command bytes, with the truncated length fields of the code |
| L3Envelope.ParseDataPayload | crates/libreatrust-core/src/transport.rs:2985-3011 | the index loop computes the recursive reading of the envelope, with the same error for each overflow |
| L3Envelope.ParseLoop | crates/libreatrust-core/src/transport.rs:2996-3010 | the loop over packets computes their recursive reading from any start |
| L3Envelope.EnvelopeRoundTrip | crates/libreatrust-core/src/transport.rs:2953-3011 | within the field limits decoding gives back the packets and uses every byte |
| L3Envelope.MistakenExactly | crates/libreatrust-core/src/transport.rs:3024-3037 | an envelope reads as a complete IP packet exactly when its token length is 69..79 or 96..111 and the token bytes in the place of the length field fit the envelope |
| L3Envelope.LengthFramedEnvelope | crates/libreatrust-core/src/transport.rs:3013-3022 | a length-framed envelope decodes to its packets exactly when it is not mistaken so |
| L3Envelope.MistakenToken | crates/libreatrust-core/src/transport.rs:3024-3037 | each of these token lengths has a token that is mistaken, whatever the packets |
| L3Envelope.PrintableToken | crates/libreatrust-core/src/transport.rs:2751-2762 | a token of printable bytes is never mistaken in an envelope of at most 4096 bytes |
| L3Frames.ReadDataRespPayload | crates/libreatrust-core/src/transport.rs:2751-2788 | under any schedule the payload, its mode, what is left and the error of a short stream are functions of the arriving bytes |
| L3Frames.ReadRegion | crates/libreatrust-core/src/transport.rs:2776-2786 | the packets of a token-mode payload are taken as they stand in the arriving bytes, with the error of a short stream |
| L3Frames.TokenPayloadDecodes | crates/libreatrust-core/src/transport.rs:2764-2788 | every token-mode payload read off the stream decodes without error and is consumed exactly |
| L3Frames.PrintableEnvelopeDecodes | crates/libreatrust-core/src/transport.rs:2755-2762 | whenever the payload read in length mode is an envelope with a printable token, its packets are decoded |
| L3Frames.ReadFrame | crates/libreatrust-core/src/transport.rs:2691-2728 | what follows each header is consumed to its end |
| L3Frames.ReadL3Frame | crates/libreatrust-core/src/transport.rs:2684-2749 | the result is the next frame of the arriving bytes, status frames passed over, and the stream is left right behind it; giving up at a frame boundary changes nothing |
| L3Frames.Remote.HandleFrame | crates/libreatrust-core/src/transport.rs:2529-2564 | the reader has been sent exactly the packets of the frames handled |
| L3Frames.Remote.DrainOne | crates/libreatrust-core/src/transport.rs:2509-2514 | one frame moves from those to come to those handled |
| L3Frames.Remote.DrainFrames | crates/libreatrust-core/src/transport.rs:2498-2527 | a batch of any size leaves the frames handled and to come unchanged as a whole |
| L3Frames.ReceivePackets | crates/libreatrust-core/src/transport.rs:2498-2749 | for every schedule of the stream and every sequence of batch sizes the reader is handed the packets of the stream's frames, in order and once |
| L3Frames.PacketsOfSerialized | crates/libreatrust-core/src/transport.rs:2529-2749 | every packet a server puts in its frames, raw or in an envelope that is not mistaken, is handed on in order, whatever other frames stand between |
| L3Frames.ReceiveSent | crates/libreatrust-core/src/transport.rs:2498-2749 | the packets a server sends are the packets the reader gets |
| Checksum.ChecksumWords | crates/libreatrust-core/src/transport.rs:3287-3300 | the fold loop ends, no 32-bit addition overflows up to 131074 bytes, and the result is the Internet checksum |
| Checksum.SumPairs | crates/libreatrust-core/src/transport.rs:3288-3295 | the 32-bit accumulator holds the exact sum of the words |
| Checksum.LongestSummed | crates/libreatrust-core/src/transport.rs:3287-3300 | the overflow bound is exact |
| Checksum.FoldIsOnesSum | crates/libreatrust-core/src/transport.rs:3296-3299 | folding carries at the end is the ones' complement sum of RFC 1071 |
| Checksum.ChecksumVerifies | crates/libreatrust-core/src/transport.rs:3268-3300 | data with its checksum in the zeroed field sums to all ones, also with 0xFFFF in place of zero |
| Packets.BuildUdpIpv4Packet | crates/libreatrust-core/src/transport.rs:3183-3221 | the array filled in place is the specified datagram, refused exactly above 65507 payload bytes |
| Packets.BuildIcmpEchoPacket | crates/libreatrust-core/src/transport.rs:1934-1955 | the array filled in place is the specified echo request |
| Packets.SumUdp | crates/libreatrust-core/src/transport.rs:3272-3285 | the UDP checksum covers pseudo-header and datagram and is never zero |
| Packets.UdpPacketVerifies | crates/libreatrust-core/src/transport.rs:3183-3221 | IP header and pseudo-header plus datagram both verify under RFC 1071, and the checksum field is not zero (RFC 768) |
| Packets.IcmpPacketVerifies | crates/libreatrust-core/src/transport.rs:1934-1955 | header and odd-length ICMP message verify |
| Packets.UdpPayloadIfMatch | crates/libreatrust-core/src/transport.rs:3164-3181 | a payload comes back exactly when all four endpoint fields match |
| Packets.UdpRoundTrip | crates/libreatrust-core/src/transport.rs:3223-3248 | both parsers recover addresses, ports and payload of every built datagram |
| Packets.IcmpMeta | crates/libreatrust-core/src/transport.rs:3089-3133 | a built echo request is recognised with its addresses and no ports |
| Router.MatchDomainPorts | crates/libreatrust-core/src/resource.rs:305-339 | there is a hit exactly when some rule applies, and it is that rule's |
| Router.MatchIp | crates/libreatrust-core/src/resource.rs:359-377 | the same for address ranges |
| Router.ManagedOnSomePort | crates/libreatrust-core/src/resource.rs:301-349 | a domain is managed on some port exactly when a matching rule has a port range that is not inverted |
| Router.InvertedRange | crates/libreatrust-core/src/resource.rs:301-349 | a rule for the ports 90 to 80 makes its domain managed and no port of it |
| Router.IcmpIgnoresPorts | crates/libreatrust-core/src/resource.rs:379-387 | the port of an ICMP destination decides whether it is a node endpoint, and nothing else |
| Pac.TcpDomains | crates/libreatrust-core/src/pac.rs:13-20 | the keys are exactly the normal forms of the TCP rules that have one |
| Pac.TcpRanges | crates/libreatrust-core/src/pac.rs:22-30 | the ranges are exactly those of the TCP rules with min at most max |
| Pac.SuffixWalk | crates/libreatrust-core/src/pac.rs:79-85 | walking the host's suffixes finds a key exactly when one is the host or stands behind one of its dots |
| Pac.IpToNumber | crates/libreatrust-core/src/pac.rs:59-70 | the loop computes the address number, or -1 |
| Pac.FindProxyForURL | crates/libreatrust-core/src/pac.rs:55-96 | the script returns the proxy exactly when a key covers the host or its address lies in a range, for every resolver |
| Pac.NormalizePlain | crates/libreatrust-core/src/pac.rs:108-119 | for rules over the allowed characters the key is the router's cleaned rule without leading dots |
| Pac.RuleCovers | crates/libreatrust-core/src/resource.rs:321-330 | whatever a rule matches in the router, its key covers in the script |
| Pac.RuleMatches | crates/libreatrust-core/src/resource.rs:321-330 | with at most one leading dot the key covers nothing the rule does not match |
| Pac.WalkIsDomainManaged | crates/libreatrust-core/src/resource.rs:343-349 | the walk succeeds exactly when a rule other than `__proto__` manages the domain; without such a rule, exactly when domain_managed does |
| Pac.ProxiedExactly | crates/libreatrust-core/src/pac.rs:55-96 | the proxy is chosen exactly for a name that a rule other than `__proto__` manages, or an address, resolved if need be, in a managed TCP range |
| Pac.LiteralAgrees | crates/libreatrust-core/src/pac.rs:59-70 | an address literal has the same number in the script as in the router |
| Pac.LiteralVerdict | crates/libreatrust-core/src/resource.rs:352-357 | for an address literal the script agrees with ip_managed_for_tcp, apart from keys that cover it |
| Pac.MissesNothing | crates/libreatrust-core/src/pac.rs:106-119 | every host the router manages for TCP on some port gets the proxy |
| Pac.LoneRule | crates/libreatrust-core/src/pac.rs:55-96 | a rule of one lower-case label is managed, and proxied exactly unless it is `__proto__` |
| Pac.ProtoRuleIsMissed | crates/libreatrust-core/src/pac.rs:41-57 | the rule `__proto__` is managed by the router and goes direct in the script |
| Socks5.Stable | crates/libreatrust-core/src/proxy_service.rs:985-1043 | more input never changes a decision: the leftover grows and nothing else |
| Socks5.MoreIsShort | crates/libreatrust-core/src/proxy_service.rs:436-438 | more input is asked for only below 262 bytes, so the size limit is never the reason to stop |
| Socks5.TryConnect | crates/libreatrust-core/src/proxy_service.rs:433-435 | a decision on part of the stream is the decision on all of it |
| Socks5.ReadConnect | crates/libreatrust-core/src/proxy_service.rs:431-439 | for every cutting of the stream the result is the parser's verdict on the whole stream, the leftover split between read and unread bytes |
| Socks5.ConnectParses | crates/libreatrust-core/src/proxy_service.rs:985-1043 | a request encoded as section 4 of RFC 1928 says parses to itself and what follows it |
| Socks5.OnlyConnectParses | crates/libreatrust-core/src/proxy_service.rs:985-1043 | an accepted buffer is such an encoding followed by the leftover |
| HttpText.FindHeaderEnd | crates/libreatrust-core/src/proxy_service.rs:1159-1161 | the first empty line, or none |
| HttpText.WordsAreInk | crates/libreatrust-core/src/proxy_service.rs:1067-1079 | the words put together are the characters of the line that are not white space, in order and none left out |
| HttpText.HeadEnds | crates/libreatrust-core/src/proxy_service.rs:1159-1161 | a head of clean lines has no empty line before its end |
| HttpText.FieldsRoundTrip | crates/libreatrust-core/src/proxy_service.rs:1081-1086 | written header fields read back in order as themselves |
| HttpProxy.ParsedIsWellFormed | crates/libreatrust-core/src/proxy_service.rs:1058-1095 | whatever is parsed has words without white space and trimmed one-line fields |
| HttpProxy.TargetParts | crates/libreatrust-core/src/proxy_service.rs:1098-1112 | scheme, authority and path put together are the target, save for a path it did not have; the path starts with a slash |
| HttpProxy.HostPortReads | crates/libreatrust-core/src/proxy_service.rs:1175-1180 | a host followed by a colon and a port is split at that colon |
| HttpProxy.BracketReads | crates/libreatrust-core/src/proxy_service.rs:1164-1173 | a bracketed host reads with its port, or with the default port when none follows |
| HttpProxy.ConnectionTokens | crates/libreatrust-core/src/proxy_service.rs:1119-1128 | the tokens are exactly the non-empty options the connection fields name |
| HttpProxy.WriteHeaders | crates/libreatrust-core/src/proxy_service.rs:1134-1149 | the loop writes the request line and the end-to-end fields in order |
| HttpProxy.RewriteRequest | crates/libreatrust-core/src/proxy_service.rs:1097-1157 | the buffer the method fills is the specified message, with the same errors |
| HttpProxy.RewriteReparses | crates/libreatrust-core/src/proxy_service.rs:1058-1157 | reading the rewritten request gives the same method, version and body, the origin-form path and the forwarded fields |
| HttpProxy.ForwardedValues | crates/libreatrust-core/src/proxy_service.rs:1138-1155 | an end-to-end field keeps its values, every hop-by-hop field is gone, and there is one Connection field (section 7.6.1 of RFC 9110) |
| HttpProxy.NamedFieldsGone | crates/libreatrust-core/src/proxy_service.rs:1119-1147 | a field named by a connection option is gone, except Upgrade on an upgrade, which is kept and present |
| DnsCache.Cache.Find | crates/libreatrust-core/src/proxy_service.rs:692-696 | a hit is the last answer recorded for the host, younger than the limit |
| DnsCache.Cache.Evict | crates/libreatrust-core/src/proxy_service.rs:708-714 | after eviction there is room, survivors are unchanged, and either all is dropped or only stale entries are |
| DnsCache.Cache.Record | crates/libreatrust-core/src/proxy_service.rs:707-715 | the answer is stored and the bound kept |
| DnsCache.Play | crates/libreatrust-core/src/proxy_service.rs:691-717 | over every interleaving on a monotone clock at most 1024 entries are held and every answer was the last recorded for that host less than 30 s before |
| ProxyAccounting.Unfinished | crates/libreatrust-core/src/proxy_service.rs:318-322 | pruning drops exactly the handles of finished threads |
| ProxyAccounting.StepKeeps | crates/libreatrust-core/src/proxy_service.rs:283-343 | every step of listener, threads and stop keeps the accounting invariant |
| ProxyAccounting.Accounted | crates/libreatrust-core/src/proxy_service.rs:298-315 | the counter is the number of connections counted in and not out, between 0 and the total, and a registered socket belongs to an unfinished connection |
| ProxyAccounting.NoUnderflow | crates/libreatrust-core/src/proxy_service.rs:314-327 | no step takes the counter below zero |
| ProxyAccounting.StoppedClean | crates/libreatrust-core/src/proxy_service.rs:190-208 | when stop has returned every thread is gone, the counter is 0 and no socket is registered, despite pruning |
| ProxyAccounting.HeldExactly | crates/libreatrust-core/src/proxy_service.rs:190-206 | stop is held exactly by a listener its connection did not wake, by the client of a thread it joins whose socket was not shut, by a remote that thread waits for, or by the node of the keepalive tunnel; such a client's connection was registered after the sweep, which at most one is, or could not be cloned |
| ProxyAccounting.SweepShuts | crates/libreatrust-core/src/proxy_service.rs:192-194 | a socket in the map when stop sweeps it is shut, and a thread the sweep did not miss can end if and only if it does not wait for its remote |
| ProxyAccounting.HeldStays | crates/libreatrust-core/src/proxy_service.rs:195-206 | only its own client, remote, node or connecting peer frees a stop held by it |
| ProxyAccounting.OwnRunsEnd | crates/libreatrust-core/src/proxy_service.rs:190-343 | once the flag is set the program takes a bounded number of steps without its clients and remotes |
| ProxyAccounting.RestsReturnedOrHeld | crates/libreatrust-core/src/proxy_service.rs:190-208 | where these steps end stop has returned or is held |
| ProxyAccounting.LateConnectionHoldsStop | crates/libreatrust-core/src/proxy_service.rs:286-301 | a run in which a connection registered after the sweep holds stop |
| ProxyAccounting.UnclonedConnectionHoldsStop | crates/libreatrust-core/src/proxy_service.rs:299-301 | a run in which a connection whose socket could not be cloned holds stop |
| ProxyAccounting.UnwokenListenerHoldsStop | crates/libreatrust-core/src/proxy_service.rs:195-198 | a run in which a listener that was not woken holds stop |
| ProxyAccounting.StalledRemoteHoldsStop | crates/libreatrust-core/src/proxy_service.rs:840-853 | a run in which a thread whose client socket was shut still waits for its remote and holds stop |
| ProxyAccounting.StalledNodeHoldsStop | crates/libreatrust-core/src/proxy_service.rs:203-206 | a run in which every connection is gone and the node of the keepalive tunnel holds stop |
| Login.StepSelects | crates/libreatrust-core/src/auth.rs:182-214 | the step is made from the first item of the named service, or the first of all, with the id, service and SMS mode that follow; without items from the service alone |
| Login.StepCompletes | crates/libreatrust-core/src/auth.rs:182-214 | the login is complete exactly when the answer names neither a service nor an id |
| Login.AuthSession.AuthCheck | crates/libreatrust-core/src/auth.rs:1021-1048 | a step it returns has its mode set as its service says |
| Login.AuthSession.CompleteLogin | crates/libreatrust-core/src/auth.rs:511-524 | no flow is left pending and the result carries the session's name and id |
| Login.AuthSession.BeginSms | crates/libreatrust-core/src/auth.rs:545-560 | the missing-mode error is returned only for a step without a mode; success leaves the step pending, failure leaves the flow as it was |
| Login.AuthSession.BeginCustomSms | crates/libreatrust-core/src/auth.rs:562-572 | success leaves a step with the custom mode pending |
| Login.AuthSession.ContinueAuth | crates/libreatrust-core/src/auth.rs:526-543 | at most 8 authCheck requests, a fitting flow for every challenge, Done only when the last step named nothing more, and a failure leaves the flow unless that step completed the login |
| Login.AuthSession.FinishLogin | crates/libreatrust-core/src/auth.rs:502-509 | the same, with one authCheck more |
| Login.AuthSession.RunPassword | crates/libreatrust-core/src/auth.rs:451-466 | a captcha challenge leaves the same password flow pending |
| Login.AuthSession.RunSmsSend | crates/libreatrust-core/src/auth.rs:468-478 | a captcha challenge leaves the same SMS flow pending |
| Login.AuthSession.RunSmsVerify | crates/libreatrust-core/src/auth.rs:480-500 | a captcha challenge leaves the verification with its code pending |
| Login.AuthSession.CompleteAuthStep | crates/libreatrust-core/src/auth.rs:574-587 | the invalid-step error is returned only for a step without a mode |
| Login.AuthSession.LoginWithPassword | crates/libreatrust-core/src/auth.rs:292-300 | whatever the server answers, the challenge fits the pending flow |
| Login.AuthSession.LoginWithSms | crates/libreatrust-core/src/auth.rs:302-310 | whatever the server answers, the challenge fits the pending flow |
| Login.AuthSession.SubmitCaptcha | crates/libreatrust-core/src/auth.rs:312-329 | refused exactly without a flow or in a step, and then nothing changes |
| Login.AuthSession.SubmitSmsCode | crates/libreatrust-core/src/auth.rs:331-369 | refused exactly without a flow or in a password flow; a second factor that fails leaves its step pending unless the login was complete |
| Login.AuthSession.CompleteCallback | crates/libreatrust-core/src/auth.rs:371-376 | whatever the server answers, the challenge fits the pending flow |
| Login.AuthSession.ResumeSession | crates/libreatrust-core/src/auth.rs:391-418 | the pending flow is untouched and success returns the session's name and id |
| Login.Play | crates/libreatrust-core/src/auth.rs:292-418 | for every sequence of calls and answers each challenge fits the flow left pending, the missing-mode and invalid-step errors never occur, and input is refused only in a flow that does not take it |
| Login.ChallengeIsAnswerable | crates/libreatrust-core/src/auth.rs:312-369 | the input a challenge asks for is not refused as unexpected by the next call, and after Done there is nothing to answer |
| CivilDate.Epoch | crates/libreatrust-core/src/log.rs:130-139 | day 0 is 1970-01-01 |
| CivilDate.PickedYear | crates/libreatrust-core/src/log.rs:131-135 | the year and day the divisions pick are those that hold the day |
| CivilDate.NextCivil | crates/libreatrust-core/src/log.rs:127-139 | every day count gives a valid date, and the next count its calendar successor |
| CivilDate.CountingDays | crates/libreatrust-core/src/log.rs:127-139 | counting n days is n steps through the calendar, from any day |
| LogRotation.Log.AppendLine | crates/libreatrust-core/src/log.rs:86-103 | whatever fails, the new files and size are the specified ones and backup followed by file stays the end of what was written |
| LogRotation.AppendedOrdered | crates/libreatrust-core/src/log.rs:86-103 | an append loses and reorders nothing but the old backup, and the file is never shorter than the sink believes |
| LogRotation.BoundExactly | crates/libreatrust-core/src/log.rs:90-102 | after an append with an open sink the limit holds if and only if no rotation was due, or the sink saw that it was and the rename succeeded |
| LogRotation.RunWithin | crates/libreatrust-core/src/log.rs:86-120 | over every run whose writes are whole or nothing the limit holds after each append if no due rename fails, and exactly then when every line gets out; the size stays exact |
| LogRotation.FullRunWritesAll | crates/libreatrust-core/src/log.rs:86-120 | a run whose file operations succeed writes every line in order |
| LogRotation.FailedRenameOvergrows | crates/libreatrust-core/src/log.rs:95-96 | a failed rename takes the file past its limit |
| LogRotation.PartialWriteOvergrows | crates/libreatrust-core/src/log.rs:98-102 | a write failing part way leaves the size behind, and the next line takes the file to 18 bytes with a limit of 10 although renames succeed |
| LogRotation.Log.Rotate | crates/libreatrust-core/src/log.rs:92-96 | the file moves over the backup if the rename succeeds and the size of the new one is taken if it opens |
| LogRotation.Log.WriteLine | crates/libreatrust-core/src/log.rs:98-102 | what the write gets out is appended to the file, and the size counts only a full write |
| LogRotation.Log.Run | crates/libreatrust-core/src/log.rs:86-120 | over every run, whatever fails, backup followed by file is the end of everything written |

## Left out

- Sockets, TLS, polling and interface discovery: foreign calls; readiness is "returns when unread bytes exist", reads are scripts of events.
- HTTP exchanges, JSON, cookies other than the session id, RSA and hashes of the login: an answer is arbitrary data, a failed exchange an answer without a body.
- `ffi.rs`, `client.rs`, `sign.rs`, `error.rs`: marshalling and accessors without a hard property.
- `parse_resource_bytes` and the text of address ranges: rules are taken as parsed values, addresses as numbers; whether a host is an IPv6 literal is a parameter of `Router.Route`.
- Timing: heartbeat and liveness intervals, keepalive sleeps, connect races; a timeout may happen at any time.
- The order of the PAC tables and the script's text: sorting and de-duplication change neither table's members, so a script is any arrangement of them. The script lower-cases ASCII only, as the theorems are about ASCII hosts.
- UTF-8 decoding of an HTTP head: requests are characters. Markers in replies are searched for in bytes, which is the same for ASCII markers.
- The SOCKS greeting: its buffer is discarded before the request phase.
- The wrap-around of the 64-bit auth id counter and of the 64-bit connection counters.
- A log file whose length cannot be read on opening, which the code takes for empty.
- A reader that drops its tunnel or its L3 packet channel while the worker is draining: the worker stops, and there is nobody left to deliver to.
- `set_log_directory`: it points the sink at other files, a new log in the terms of this model.
- A panicking handler thread, and a second `stop` call running beside the first.
- The text of conntrack keys: a key is an abstract name, as the protocol only compares it.
- The `status` text, event listener and diagnostic output: they do not act on the modelled state, and a listener callback is taken to return.
- A write to a node that blocks: the tunnel socket has a write timeout, so a write ends or fails in one step.
- The join at the end of an L3 close: it returns when the worker has stopped, which is what `L3Progress` states.
- Checksum.ChecksumWords: stated up to 131074 bytes, the longest data whose 32-bit sum cannot overflow; every caller stays below 65536.
- Checksum.SumPairs: the same bound.
- Socks5.ParseConnect: addresses stay bytes; their textual form is the standard library's.
- L3Envelope.EnvelopeRoundTrip: within the field limits (token up to 255 bytes, 255 packets, 65535 bytes each), as the builder truncates longer lengths.
