# ByteStacker: a verified model of the byte stream trunk and of its UUID library

ByteStacker carries many TCP connections over one UDP trunk. Each connection is an `OutLink` object at either end;
the ends (`TrunkClient`, `TrunkServer`) number what the links read, send it in datagrams, repeat it on a timer for
two seconds and never learn whether it arrived. The receiving `OutLink` puts the chunks back in order and writes
them out; a numbered release packet ends a stream. Connections are named by UUIDs, from a bundled library with a
text codec and an incremental SHA-1.

The project models these two parts and proves what they are for: the bytes put out are always a prefix of the bytes
read, whatever the network loses, repeats and reorders; a stream that ends gracefully has lost nothing; a writer
that waits has nothing to do; repetition is bounded in number, pace and time; the hash object computes SHA-1 for any
split of a message; the UUID parser accepts exactly the intended strings and inverts the printer.

`dafny verify dfyconfig.toml` checks everything.

## How the model is built

**Three layers.** The objects that the program updates in place are classes (`OutLinkObject.OutLink`,
`TrunkObjects.TrunkLink`, `TrunkEnds`, `Sha1Object.Hasher`, `NameUuid.NameGenerator`), with the source's fields and
loops. Each method is proved to turn its old state into the value that a function of `OutLinkSpec`, `Trunk`,
`PacketCache` or `Sha1Standard` gives. The properties are proved about those functions, by invariants over all runs,
and `Refinement.Play` ties the two ends together: the objects of both processes play any run of the model.

**Handlers are atomic.** One completion handler, run to its end, is one step. Sockets, resolver, timers and executor
appear as counters of outstanding operations, and any outstanding operation may complete at any time with any result
the library allows: a successful read brings 1 to 800 bytes, a failing one any number up to 800, a write transfers
no more than it was given and nothing if it fails.

**The network is the collection of datagrams ever sent.** In `Protocol` any of them may be delivered to the other side
at any time and any number of times; how often each was sent is counted. Clock readings are arbitrary there; where time matters (`Resending`, `LiveLinks`)
clocks do not go back.

**Two ends, many link objects.** `Node` keeps every link object one side ever had. A removed link stays, because its
handlers may still be due. `killed` marks a link that got a dead-link `Stop(0)`.

| file | content |
|---|---|
| `Bytes.dfy`, `Packets.dfy`, `Wire.dfy` | octets, packets, datagrams |
| `OutLinkSpec.dfy`, `OutLinkProofs.dfy` | one link as a value; the invariant every event keeps |
| `LinkTraffic.dfy`, `SocketTraffic.dfy` | what the sockets bring and take, for one link and from end to end; loops, closing, dialling |
| `Reassembly.dfy`, `Completion.dfy`, `DialFailure.dfy` | order independence; termination measure; failed dialling |
| `PacketCache.dfy`, `Resending.dfy` | the resend caches; how often, how far apart, how long |
| `Trunk.dfy`, `LiveLinks.dfy`, `BothEndsLive.dfy` | the common trunk state; live packets and dead links |
| `Node.dfy`, `Protocol.dfy`, `NodeProofs.dfy`, `EndToEnd.dfy`, `PacketIdentity.dfy` | the whole system and its results |
| `Mixtures.dfy`, `MixedOutput.dfy`, `Incarnations.dfy` | connections with several link objects on one side |
| `Projection.dfy`, `Delivery.dfy`, `SystemResending.dfy`, `SystemLive.dfy`, `Acknowledgements.dfy` | a system run as a run of one link, one cache or one table; completion, resend times, live links and acknowledgements for the system |
| `OutLinkObject.dfy`, `Dispatch.dfy`, `TrunkObjects.dfy`, `TrunkEnds.dfy` | the objects, and what a datagram does to them |
| `Refinement.dfy` | the objects play every run of the system |
| `Sha1Standard.dfy`, `Sha1Object.dfy`, `NameUuid.dfy` | RFC 3174; the hash object; name-based UUIDs |
| `Sha1Vectors.dfy`, `NameVector.dfy` | published test vectors, worked out on the specification |
| `UuidText.dfy` | UUID text |

## Findings

- A link whose endpoint list is exhausted never tells its host, contrary to the comment at `common/outlink.h:75-80`;
  whatever arrives meanwhile, the host learns of a failed dial if and only if the name did not resolve
  (`DialFailure.FailedDialIsReportedOnlyIfUnresolved`). The table entry of such a link stays for ever
  (`Delivery.AbandonedKeepsItsEntry`).
- A late duplicate of a connect request brings back a connection that the server has already closed, and the new
  link numbers its packets from 0 again. One number of a connection can then stand for two packets
  (`Incarnations.RecreatedLinkReusesNumbers`), and the client can write a string that is a prefix of neither stream
  (`Incarnations.RecreatedLinkMixesStreams`). Numbers are unique exactly as long as the link objects of the
  connection make the same calls at the same places (`PacketIdentity.NumbersAreUniqueIff`). What a link puts out is
  always a mixture of the streams read on the other side, each chunk at its place (`Mixtures.OutputIsMixture`); for
  a link that has received nothing yet it is sure to belong to one stream exactly if those streams cannot be mixed
  into anything else (`MixedOutput.OutputIsOfOneStreamIff`).
- The SHA-1 object writes only the low word of the bit count. Its padding is that of RFC 3174 exactly for messages
  below 2^29 octets (`Sha1Object.PaddingIsStandardBelowHalfAGigabyte`).
- Acknowledgements of data have no effect: they are cut to a bare header and dropped by the length check
  (`Wire.DataAcksAreInert`). The protocol document suggests otherwise; the model follows the code.

## Model

| member | source | states |
|---|---|---|
| Mixtures.OutputIsMixture | common/outlink.cpp:35-68 | In every reachable state, both directions, every link object, any number of link objects of its connection on the other side: what it has put out and buffers is exactly the chunks below the expected index of a stream each of whose places was read, at that place, by one of them |
| Mixtures.OutputIsPrefixOfInput | common/outlink.cpp:35-68 | The same while those link objects have not differed: bytes accepted by the socket are a prefix of what the peer read; with the network buffer they are exactly the chunks below the expected index |
| SocketTraffic.SocketToSocket | common/outlink.cpp:109-251 | Over every run of the whole system from its start, in both directions, told by the events of the two sockets alone: the bytes one socket has taken are a prefix of the bytes the other has brought, and all of them after a graceful end without a dead-link stop |
| SocketTraffic.RunTraffic | common/outlink.cpp:109-251 | Over every run of the system, what a link object has handed to its trunk is exactly what its socket brought, and what it has put out is exactly what its socket took |
| Mixtures.GracefulCloseEndsAMixture | common/outlink.cpp:186-194 | After a graceful end without a dead-link stop the output is such a stream to its end, and one of those link objects has closed |
| MixedOutput.MixtureCanBePutOut | common/outlink.cpp:329-359 | Every such stream can be put out by a link that has received nothing yet, by steps of its own side |
| MixedOutput.OutputIsOfOneStreamIff | common/trunklink.cpp:590-625 | A link that has received nothing yet can only put out prefixes of one stream read on the other side if and only if the streams read there cannot be mixed into anything else |
| MixedOutput.UnmixedOutputIsOfOneStream | common/outlink.cpp:35-68 | In every reachable state, if the streams cannot be mixed into anything else, every link object has put out a prefix of one of them |
| MixedOutput.SameStreamCannotBeMixed | common/trunklink.cpp:590-625 | Streams of link objects that said the same cannot be mixed into anything else |
| EndToEnd.GracefulCloseLosesNothing | common/outlink.cpp:186-194 | If the write loop ended after writing up to the stop index and the link was not declared dead, the peer has closed and every byte it read has been put out |
| PacketIdentity.PacketsAreCalls | common/trunklink.cpp:104-149 | In every reachable state the numbered packets of a connection, on the network and in the cache, are exactly the calls of its link objects, however many there were, each under the place of its call |
| PacketIdentity.NumbersAreUniqueIff | common/trunklink.cpp:30-40 | Each number of a connection stands for one packet if and only if no two link objects of the connection on that side made different calls at one place |
| PacketIdentity.UniqueNumbersMakeAPair | common/trunklink.cpp:30-40 | Whenever the numbers are unique, the stream results apply |
| PacketIdentity.ReleaseIsAboveDataOfItsLink | common/trunklink.cpp:151-163 | The release of a link object has a higher number than all its data and is its only release, also for recreated links |
| PacketIdentity.PacketIdentityIsStable | common/trunklink.cpp:104-149 | For such connections numbers are consecutive from 0, a number is one packet for ever in cache and network, and the only release has the highest number |
| EndToEnd.DataPastStopNeverArrives | common/outlink.cpp:335-341 | The assertion that no data at or past the stop index arrives holds on every link without a dead-link stop |
| EndToEnd.EveryLinkIsSound | common/outlink.cpp:261-280 | In every reachable state each link has one outstanding operation per running loop, loses no wake-up, stores no stale chunk, calls close at most once and last; the table holds exactly the links that have not closed |
| EndToEnd.StepOk | common/trunklink.cpp:179-302 | Any step of either end, and any delivery of anything ever sent, keeps the invariant of the whole system |
| EndToEnd.EventInSync | common/outlink.cpp:329-387 | An event at a receiving link that agrees with what the peer said keeps its output in step with the peer's stream |
| EndToEnd.SpeakerMoves | common/outlink.cpp:109-117 | When the sending side says more, everything received so far is still part of its stream |
| Incarnations.RecreatedLinkReusesNumbers | common/trunklink.cpp:590-625 | A reachable state in which number 0 of one connection is both a release and a data packet |
| Incarnations.RecreatedLinkMixesStreams | common/trunklink.cpp:590-625 | A reachable state in which the client has written a string that is a prefix of the input of neither link of the server |
| Projection.StepProjects | common/trunklink.cpp:273-321 | An action of the system is at most one event of a link object; only a dead-link stop marks it |
| Projection.RunProjects | common/trunklink.cpp:273-321 | A run of the system is, for each link object, a possible run of its events |
| Projection.EveryLinkHasItsRun | common/outlink.cpp:305-326 | After every run of the system from its start, each link object is what its own events make of a new one: on the client of one on a connected socket, on the server of one that resolves its host first |
| Delivery.RunIsStreamRun | common/outlink.cpp:329-387 | For a link without a dead-link stop that run carries only what the peer said, and stops ahead of the expected index |
| Delivery.DeliveredStreamIsWrittenOut | common/outlink.cpp:176-251 | In the system: once everything said has reached a link that is still writing, any continuation without an error, cancellation or dead-link stop of that link never parks it and ends, within one write round per missing byte, with the whole stream written |
| Delivery.AbandonedKeepsItsEntry | common/outlink.cpp:137-141 | A link whose dialling failed without a report stays in the table of its trunk for ever |
| OutLinkProofs.ApplyOk | common/outlink.cpp:97-280 | Every event keeps: stored keys at or above the expected index and below the stop, one operation per running loop, an outstanding write is on the whole buffer, no lost wake-up, close once and last |
| OutLinkProofs.StartOk | common/outlink.cpp:305-326 | A link just started, connected or not, has that invariant |
| OutLinkProofs.CallEffect | common/outlink.cpp:109-134 | An event makes at most one call on the trunk, a read or the one close, and none after the close |
| OutLinkProofs.WriterEntered | common/outlink.cpp:176-178 | Whenever the write loop is entered its flag is set and it has no operation of its own |
| OutLinkProofs.DrainChunksOk | common/outlink.cpp:44-67 | Draining meets no key below the expected index and stops only where the expected chunk is missing or the stop index is reached |
| LinkTraffic.WrittenIsTaken | common/outlink.cpp:248-250 | An event adds to the output the first bytes of the outstanding write, as many as the socket reports, and no other event adds anything; the rest of the write stays at the front of the buffer |
| LinkTraffic.WrittenIsWhatSocketTook | common/outlink.cpp:224-251 | Over every run the output grows by exactly the bytes the socket took, in order |
| LinkTraffic.FirstCopyCounts | common/outlink.cpp:343-346 | A chunk that waits for its predecessors is never replaced by a later copy |
| LinkTraffic.CallsAreMade | common/outlink.cpp:109-117 | An event hands to the trunk exactly what a read brought, failed or not, and calls close exactly on a close check with both loops off, once |
| LinkTraffic.ChunksAreRead | common/outlink.cpp:109-134 | Over every run the data handed to the trunk grow by exactly the non-empty reads, in order |
| LinkTraffic.TrafficOfNewLink | common/outlink.cpp:109-251 | Over every run of a new link, what it handed over is what its socket brought and what it put out is what its socket took |
| LinkTraffic.ReadingGoesOn | common/outlink.cpp:119-134 | The read loop goes on, with one read outstanding all the time, exactly until a read fails |
| LinkTraffic.WritingGoesOn | common/outlink.cpp:176-251 | The write loop goes on exactly until a write fails, or until it is entered after a cancellation or with nothing left before the end of the stream |
| LinkTraffic.BadWriteEndsLoop | common/outlink.cpp:224-246 | An error, nothing written or more than the buffer ends the write loop, asks for a close check and counts as nothing taken |
| LinkTraffic.WriterEndCancels | common/outlink.cpp:180-194 | A write loop that ends in any other way cancels the link |
| LinkTraffic.WillCloseStays | common/outlink.cpp:127-129 | A loop that is on, a close check that is due or a close: no event leaves a link with none of them |
| LinkTraffic.StartedLinkCloses | common/outlink.cpp:254-280 | On every run on which the loops were started: once both are off, the link has closed, or the outstanding close check closes it |
| LinkTraffic.CancelledLinkEnds | common/outlink.cpp:71-76 | After a cancellation a writer that is still on has a handler due, which ends it; a read error ends the reader; then the close check is due |
| LinkTraffic.DialStep | common/outlink.cpp:156-162 | A refusal leads to the next endpoint; dialling is over when one accepts, the last refuses or the name does not resolve |
| LinkTraffic.DiallingTriesEveryPoint | common/outlink.cpp:137-162 | On every run of a link that dials: after resolving to n endpoints and j refusals, j < n, the next is being dialled; dialling is over if and only if resolving failed, an endpoint accepted or all n refused |
| Reassembly.RunOk | common/outlink.cpp:97-387 | That invariant holds after every run of events |
| Reassembly.ReassemblyIsDeterminedByDeliveries | common/outlink.cpp:329-387 | For every order, duplication and interleaving, after a final drain the expected index is the least index never delivered, or the stop index if smaller, and the output is the chunks below it |
| Reassembly.OrderDoesNotMatter | common/outlink.cpp:329-359 | Two runs that received the same chunks and stop have put out the same bytes |
| Reassembly.RunTracks | common/outlink.cpp:35-68 | After any run, chunks delivered are consumed, stored or past the stop, and output plus buffer are the chunks below the expected index |
| Completion.ReceivedStreamIsWrittenOut | common/outlink.cpp:176-251 | Once all chunks and the stop are in, the writer is never parked, always has a handler due, and ends by itself with the whole stream written within one round per missing byte |
| Completion.WriteRoundProgress | common/outlink.cpp:224-251 | Each successful write round finishes the stream or strictly reduces the bytes left |
| Completion.WriterIsBusy | common/outlink.cpp:195-208 | With everything received the writer does not wait for the idle timer |
| DialFailure.FailedDialIsReportedOnlyIfUnresolved | common/outlink.cpp:137-162 | For every run without a successful connect, with any data, stops and close checks in it: once dialling is over the host has been told, or can still be, if and only if the name did not resolve |
| DialFailure.RefusedConnectionIsNeverReported | common/outlink.cpp:156-162 | If the only endpoint refuses, no call is ever made on the host, whatever follows |
| OutLinkObject.Begin | common/outlink.cpp:44-46 | The first entry of the ordered map is the least key |
| OutLinkObject.OutLink.constructor | common/outlink.cpp:20-32 | A new link is idle and empty |
| OutLinkObject.OutLink.FillNetworkBuffer | common/outlink.cpp:35-68 | The in-place loop drains exactly as the recursive definition, and its assertion holds |
| OutLinkObject.OutLink.CancelReadWrite | common/outlink.cpp:71-76 | Sets the immediate stop and wakes a parked writer |
| OutLinkObject.OutLink.RequestRead | common/outlink.cpp:97-106 | One more read outstanding; only with the read flag set |
| OutLinkObject.OutLink.RequestWrite | common/outlink.cpp:176-221 | Cancels, ends, parks or writes, by the flags and the buffer after filling; only with the write flag set |
| OutLinkObject.OutLink.Run | common/outlink.cpp:305-326 | Starts both loops on a connected socket, otherwise resolving |
| OutLinkObject.OutLink.StartLoops | common/outlink.cpp:168-171 | Read flag and read, then write flag and write |
| OutLinkObject.OutLink.RequestReadProcessing | common/outlink.cpp:109-134 | Data go to the host even on error; an error ends the read loop and cancels, otherwise reading goes on |
| OutLinkObject.OutLink.RequestWriteProcessing | common/outlink.cpp:224-251 | For any reported error and count: an error, nothing written or more than the buffer ends the write loop, otherwise the written bytes leave the buffer and writing goes on; the link invariant is kept |
| OutLinkObject.OutLink.IdleTimerHandler | common/outlink.cpp:198-207 | Expiry and cancellation of the idle wait both enter the write loop |
| OutLinkObject.OutLink.CheckReadyCloseProcessing | common/outlink.cpp:261-280 | Close is called when both loops are off, and once |
| OutLinkObject.OutLink.ResolverProcessing | common/outlink.cpp:282-300 | Failure asks for a close check, success starts dialling |
| OutLinkObject.OutLink.RequestConnect | common/outlink.cpp:137-154 | Dials the first endpoint; with none left nothing happens |
| OutLinkObject.OutLink.RequestConnectProcessing | common/outlink.cpp:156-173 | Failure tries the next endpoint, success starts both loops |
| OutLinkObject.OutLink.SendData | common/outlink.cpp:329-359 | Old, late and duplicate chunks are dropped, others stored; the expected one wakes the writer |
| OutLinkObject.OutLink.Stop | common/outlink.cpp:361-387 | At or below the expected index closes the input there and wakes the writer, otherwise sets the stop and erases what is past it |
| OutLinkObject.OutLink.EraseFrom | common/outlink.cpp:380-386 | The erasing walk keeps exactly the entries below the stop |
| Resending.ResendsAreBounded | common/trunklink.cpp:366-392 | Over any run of a cache: at most 7 copies, more than 300 ms apart (at least 300 ms for connects), none later than 2000 ms after the first |
| Resending.ResendsHappen | common/trunklink.cpp:138-146 | With ticks at most g apart, at least floor(2000/(300+g)) copies follow the first |
| Resending.PushedCopiesLeaveExactly | common/trunklink.cpp:366-392 | With a clock that does not go back, a packet pushed once and not acknowledged leaves at once and then exactly on those ticks within 2000 ms that come more than 300 ms (at least 300 ms for connects) after the copy before |
| Resending.AtMostSevenCopiesPerPush | common/trunklink.cpp:366-392 | Over any run of a cache, whatever its clock does, a packet is sent at most 7 times for each time it was pushed |
| Resending.QuietAfterAck | common/trunklink.cpp:526-539 | After an acknowledgement no connect request for that connection is sent again |
| SystemResending.NumberedPacketIsSentBoundedly | common/trunklink.cpp:366-392 | In every system run with a clock that does not go back, a numbered packet of a connection with one link object is sent at most 7 times with those gaps and that deadline, counting every time it was sent |
| SystemResending.PushedOnce | common/trunklink.cpp:104-149 | Such a packet enters the cache at most once in any system run |
| SystemResending.NumberedPacketIsSentBoundedlyPerLink | common/trunklink.cpp:366-392 | In every system run, whatever the clocks do and however many link objects the connection has, a numbered packet is sent at most 7 times for each link object that made its call |
| SystemResending.NumberedPacketIsResent | common/trunklink.cpp:366-392 | In system runs with resend ticks at most g apart until the deadline, a numbered packet is sent at least 1 + floor(2000/(300+g)) times |
| SystemResending.NumberedPacketLeavesExactly | common/trunklink.cpp:366-392 | In system runs, such a packet is sent exactly once when its call is made and then exactly at those times, and never otherwise |
| SystemResending.LogIsComplete | common/trunklink.cpp:366-392 | From any reachable state, a packet that a cache repeats is sent exactly as often as that cache sends it |
| SystemResending.RequestIsSentBoundedly | common/trunklink.cpp:419-479 | The same bounds for the connect request of an identifier the client uses once, counting every time it was sent |
| SystemResending.NoRequestAfterAck | common/trunklink.cpp:526-539 | In every continuation of the system after the acknowledgement, the number of requests sent for that identifier stays what it was |
| SystemResending.RunCaches | common/trunklink.cpp:366-392 | The cache of a side after any system run is what its own pushes, ticks and acknowledgements make of it |
| Acknowledgements.EveryArrivalIsAcknowledged | common/trunklink.cpp:273-302 | Over every run of the system a side sends exactly the acknowledgements that arrivals call for: one for each request that reaches the server, known or not, and one for each data packet of a connection in its table |
| PacketCache.StepOnly | common/trunklink.cpp:366-392 | What a cache does for one packet is independent of all other packets in it |
| PacketCache.RemoveExpired | common/trunklink.cpp:370-376 | In-place eviction keeps exactly the unexpired entries, in order |
| PacketCache.OnCacheResend | common/trunklink.cpp:366-392 | Evicts, then sends and postpones exactly the entries that are due |
| PacketCache.Forget | common/trunklink.cpp:531-538 | Erasing one by one removes exactly the entries of one connection |
| LiveLinks.DeadExactlyAfterSilence | common/trunklink.cpp:63-80 | A link gets the dead-link stop if and only if live packets are due and nothing was heard for more than 5000 ms, creation included |
| LiveLinks.LiveLinkIsNeverDead | common/trunklink.cpp:63-94 | If the peer has the link and keeps it alive, then with its ticks at most g apart, delay at most d and at most k losses in a row, (k+1)(1000+g)+d <= 5000 rules out the dead-link stop |
| BothEndsLive.NeitherEndDeclaresDeath | common/trunklink.cpp:63-94 | The same for both ends at once, neither assumed to keep the link alive, with the time between the creation of the two ends added to the left side |
| SystemLive.ConnectionStaysLive | common/trunklink.cpp:63-94 | In runs of the system such a connection gets no dead-link stop on either side |
| SystemLive.StepTables | common/trunklink.cpp:323-346 | An action of the system changes the link table of a side as one table event: a live tick, a live packet, an addition, a removal or a number taken |
| LiveLinks.SendsAreRegular | common/trunklink.cpp:64-69 | A live link is sent live packets at most 1000+g apart |
| LiveLinks.SendsAreSparse | common/trunklink.cpp:64-69 | Live packets for a link are at least 1000 ms apart, and the first comes not before the time set for it |
| LiveLinks.LiveSendsAreSent | common/trunklink.cpp:72-92 | The live packets sent for a link over a run are exactly those sends |
| SystemLive.LivePacketsAreSparse | common/trunklink.cpp:63-94 | In system runs the live packets sent for a connection are exactly the live sends of the side's link table, at least 1000 ms apart |
| NodeProofs.HostSends | common/trunklink.cpp:104-163 | A call of a link becomes the next numbered packet, cached and sent; a close also removes the entry; only the reserved number sends nothing |
| NodeProofs.LocalEventOk | common/outlink.cpp:109-134 | A link's own events keep the node invariant: sent packets are exactly the calls, the table counts them |
| NodeProofs.ReceiveOk | common/trunklink.cpp:273-332 | Any packet received keeps the node invariant |
| NodeProofs.AddConnectOk | common/trunklink.cpp:483-500 | A new connection, or a colliding identifier, keeps the node invariant |
| NodeProofs.LiveTickOk | common/trunklink.cpp:63-94 | A live tick with its dead-link stops keeps the node invariant |
| NodeProofs.ResendTickOk | common/trunklink.cpp:366-392 | A resend tick keeps the node invariant and sends no packet that was not sent before |
| NodeProofs.ConnectResendTickOk | common/trunklink.cpp:452-479 | So does a tick of the connect cache |
| TrunkObjects.OthersTable | common/trunklink.cpp:395-401 | Erase by filter is removal from the table, and entries stay distinct |
| TrunkObjects.AppendEntry | common/trunklink.cpp:335-346 | Appending a new connection is insertion into the table, and entries stay distinct |
| TrunkObjects.UpdateEntry | common/trunklink.cpp:32-36 | Changing one entry in place changes one entry of the table |
| TrunkObjects.TrunkLink.GetOutLink | common/trunklink.cpp:348-360 | The scan finds the link of the connection, or none if there is none |
| TrunkObjects.TrunkLink.GetNextPacketIndex | common/trunklink.cpp:30-40 | Takes the number of that entry and advances it alone, or reports that there is none |
| TrunkObjects.TrunkLink.ProcessLive | common/trunklink.cpp:323-332 | Moves the deadline of that entry alone |
| TrunkObjects.TrunkLink.RemoveOutLink | common/trunklink.cpp:395-401 | Compaction removes exactly that entry |
| TrunkObjects.TrunkLink.IntAddOutLink | common/trunklink.cpp:335-346 | Adds an entry numbered from 0 with a fresh deadline and starts the link |
| TrunkObjects.TrunkLink.SendCmdData | common/trunklink.cpp:104-149 | Oversized data change nothing; otherwise number, cache, send |
| TrunkObjects.TrunkLink.CloseConnect | common/trunklink.cpp:151-163 | Numbered release, then removal |
| TrunkObjects.TrunkLink.OnCacheResend | common/trunklink.cpp:366-392 | Cache and sent packets after a tick |
| TrunkObjects.TrunkLink.ProcessDataToOutlink | common/trunklink.cpp:273-302 | Acknowledges and passes the chunk to that link alone; an unknown connection changes nothing |
| TrunkObjects.TrunkLink.ProcessReleaseConnect | common/trunklink.cpp:309-321 | Stops that link alone |
| TrunkObjects.TrunkLink.SendLivePacket | common/trunklink.cpp:63-94 | When due: dead links and only they get Stop(0), the others a live packet |
| TrunkEnds.TrunkClient.AddConnect | common/trunklink.cpp:483-500 | Adds, starts and announces the connection; a colliding identifier changes nothing |
| TrunkEnds.TrunkClient.SendConnectInformation | common/trunklink.cpp:419-450 | Caches and sends the request |
| TrunkEnds.TrunkClient.OnCacheResend | common/trunklink.cpp:452-479 | Ticks the data cache, then the connect cache |
| TrunkEnds.TrunkClient.ProcessAckConnectData | common/trunklink.cpp:526-539 | Forgets the requests of that connection |
| TrunkEnds.TrunkServer.ProcessConnectData | common/trunklink.cpp:590-625 | Always acknowledges; a duplicate changes neither table nor link; a new one is added and started |
| TrunkObjects.TrunkLink.ProcessTrunkData | common/trunklink.cpp:179-271 | Any bytes: malformed and misdirected ones change nothing; a packet changes the trunk and the one link it is for; requests and their acknowledgements are handed over |
| TrunkEnds.TrunkClient.ProcessTrunkData | common/trunklink.cpp:179-271 | The same on the client, where only an acknowledgement of a request touches the connect cache |
| TrunkEnds.TrunkServer.ProcessTrunkData | common/trunklink.cpp:179-271 | The same on the server, where only a request may add a link |
| Dispatch.NodeDispatches | common/trunklink.cpp:273-332 | A side of the whole-system model does with a received packet what its trunk object and link objects do |
| Refinement.Play | common/trunklink.cpp:43-60 | For every run of the system model, the objects of both processes, started by their constructors, end in the state the model gives |
| Refinement.Act | common/trunklink.cpp:179-271 | One handler on the objects of one process is one step of the system |
| Refinement.LinkHandler | common/outlink.cpp:109-134 | A handler of a link object with the call it makes on the trunk object is the model's local event |
| Refinement.ClientReceives | common/trunklink.cpp:503-516 | Any datagram on the client's objects is the model's reception |
| Refinement.ServerReceives | common/trunklink.cpp:562-587 | Any datagram on the server's objects is the model's reception, with the new link if one is made |
| Refinement.ClientConnects | common/trunklink.cpp:483-500 | Accepting a connection on the client's objects is the model's new connection |
| Refinement.LiveTicks | common/trunklink.cpp:63-94 | A live tick on the objects stops and keeps the links the model stops and keeps |
| Refinement.ClientResendTicks | common/trunklink.cpp:452-479 | The client's resend handler on the objects is the model's tick of the data cache followed by that of the connect cache |
| Wire.WireRoundTrip | common/trunklink.cpp:179-271 | Whatever one side builds fits the buffer and is decoded by the other to the same packet |
| Wire.OwnDataIsDropped | common/trunklink.cpp:189-210 | A side drops data built for the other direction |
| Wire.DataAcksAreInert | common/trunklink.cpp:239-250 | Data acknowledgements are dropped by everybody |
| Wire.DecodedOrDropped | common/trunklink.cpp:189-210 | The other side decodes a packet to itself or drops it, never to a different one |
| Wire.AcceptedIsExact | common/trunklink.cpp:223-266 | Any bytes accepted as data or release are exactly what the other side builds for that packet |
| Wire.DecodedExactly | common/trunklink.cpp:179-271 | Any bytes whatever are taken as a given packet if and only if they are laid out as the packet structures say, in numbers: sixteen octets, a command, little-endian words, data, and the lengths the code checks |
| Wire.EncodedSize | common/trunklink.h:33-53 | Every datagram has the size of its structure; a data acknowledgement ends before its index |
| Sha1Object.PaddingIsStandardBelowHalfAGigabyte | common/uuid.h:171-199 | The object's padding is that of section 4 of RFC 3174 if and only if the message is below 2^29 octets |
| Sha1Object.DigestIsStandardBelowHalfAGigabyte | common/uuid.h:171-199 | Below 2^29 octets the object's answer is SHA-1 |
| Sha1Object.RoundAsCoded | common/uuid.h:254-281 | A round as coded is a round of section 6.1 of RFC 3174 |
| Sha1Object.RotationsAgree | common/uuid.h:125-128 | The exclusive-or rotation is the circular shift of section 3 of RFC 3174 |
| Sha1Object.OneRound | common/uuid.h:254-281 | The round body computes one standard round |
| Sha1Object.EightyRounds | common/uuid.h:248-281 | The round loop computes the standard eighty rounds |
| Sha1Object.Expand | common/uuid.h:244-246 | The second schedule loop computes the standard word sequence |
| Sha1Object.HashPieces | common/uuid.h:132-169 | After a reset of an object with any past, any split of a message gives the digest of the whole |
| Sha1Object.Hasher.Reset | common/uuid.h:132-141 | The object has absorbed nothing, whatever its block buffer holds |
| Sha1Object.Hasher.ProcessByte | common/uuid.h:143-152 | Absorbs one octet; the digest is that of the whole blocks so far and the block buffer starts with the rest |
| Sha1Object.Hasher.ProcessBytes | common/uuid.h:154-169 | Absorbs the octets in order |
| Sha1Object.Hasher.ProcessBlock | common/uuid.h:235-288 | Compresses the block buffer into the digest as the standard does |
| Sha1Object.Hasher.Schedule | common/uuid.h:237-246 | The eighty words of the block |
| Sha1Object.Hasher.PadToLength | common/uuid.h:174-187 | The end marker and as few zeros as reach octet 56 of a block |
| Sha1Object.Hasher.GetDigest | common/uuid.h:171-199 | The digest of the padded message |
| Sha1Object.Hasher.GetDigestBytes | common/uuid.h:201-230 | Its twenty octets, high ones first |
| Sha1Standard.SoFarSnoc | common/uuid.h:143-152 | One more octet either completes a block, which is compressed, or leaves the digest alone |
| Sha1Standard.PadIsWholeBlocks | common/uuid.h:171-199 | The standard padding makes whole blocks |
| Sha1Standard.RoundDependsOnWord | common/uuid.h:275 | Rounds from one state give different results for different message words |
| Sha1Vectors.AbcDigest | common/uuid.h:117-289 | The digest of "abc" is that of TEST1 in section 7.3 of RFC 3174 |
| Sha1Vectors.LongDigest | common/uuid.h:117-289 | The digest of the 56 octets of TEST2a, two blocks, is the one given there |
| NameUuid.NameGenerator.Generate | common/uuid.h:780-797 | The result is a function of namespace and name alone, whatever was hashed before; below 2^29 octets it is that of section 4.3 of RFC 4122 |
| NameUuid.NameGenerator.ProcessCharacters | common/uuid.h:799-811 | One octet for a single-byte character, four in little-endian order otherwise |
| NameUuid.NameGenerator.MakeUuid | common/uuid.h:813-827 | First sixteen octets of the hash with version and variant put in |
| NameUuid.VersionAndVariant | common/uuid.h:818-824 | Version 5, variant 10, all other bits those of the hash |
| NameUuid.UnitIsLittleEndian | common/uuid.h:799-811 | A wide character can be read off its four octets, the low one first |
| NameUuid.UnitsInOrder | common/uuid.h:799-811 | The octets of each wide character of a name are at its place |
| NameVector.ExampleUuid | common/uuid.h:780-827 | The name-based UUID of www.example.com in the DNS name space is the one of appendix A.4 of RFC 9562 |
| UuidText.IsValidUuid | common/uuid.h:459-500 | True exactly for the accepted strings: braces matched if opened, and 32 hex digits once hyphens are deleted |
| UuidText.FromString | common/uuid.h:503-547 | Parses exactly the accepted strings, to the octets their digits spell |
| UuidText.ToString | common/uuid.h:586-602 | The in-place loop prints the lower-case 8-4-4-4-12 form |
| UuidText.PrintedIsParsedBack | common/uuid.h:503-602 | Parsing what was printed gives the identifier back |
| UuidText.ParsedIsPrintedCanonically | common/uuid.h:503-602 | Printing what was parsed gives the canonical form of its digits |
| UuidText.SameUuidSameDigits | common/uuid.h:503-547 | Two accepted strings are the same identifier if and only if their digits differ at most in case |
| UuidText.CanonicalShape | common/uuid.h:586-602 | Thirty-six characters, hyphens at 8, 13, 18 and 23, lower-case digits elsewhere |
| UuidText.EncoderInverts | common/uuid.h:79-98 | Digit values and digit characters are inverse up to case |
| UuidText.HexCharacters | common/uuid.h:79-98 | The accepted digits are 0-9, a-f and A-F and nothing else, with their values |
| UuidText.DigitsAloneAreParsed | common/uuid.h:503-547 | Hex digits alone are an identifier if and only if there are 32 of them, two for each octet, the high one first |
| UuidText.HyphensAreIgnored | common/uuid.h:519-521 | A hyphen anywhere inside makes no difference |
| UuidText.BracesAreIgnored | common/uuid.h:514-519 | Neither does a pair of braces around the whole |
| UuidText.OpenBraceMustBeClosed | common/uuid.h:514-517 | A string that opens a brace and does not close it is refused |
| UuidText.OtherCharactersAreRefused | common/uuid.h:523-526 | A string with any character but digits, hyphens and the two outer braces is refused |
| UuidText.UpperCaseIsParsedBack | common/uuid.h:94-97 | The upper-case form of a printed identifier is parsed to it as well |
| UuidText.DnsNamespaceText | common/uuid.h:621 | The identifier of the DNS name space prints as 6ba7b810-9dad-11d1-80b4-00c04fd430c8 |

## Left out

- Mixtures.OutputIsPrefixOfInput: assumes that the link objects of the connection on the speaking side have not differed; Mixtures.OutputIsMixture and MixedOutput.OutputIsOfOneStreamIff say what holds otherwise.
- Mixtures.OutputIsMixture: assumes at most 2^32-2 calls of each link object on the speaking side; the code reuses or drops numbers after that. So do the other results about streams and numbers.
- MixedOutput.OutputIsOfOneStreamIff: speaks of a link that has received nothing yet; for one that has, only the direction of UnmixedOutputIsOfOneStream is stated.
- EndToEnd.GracefulCloseLosesNothing: excludes links with a dead-link stop, which may end early, and speaking link objects that have differed.
- PacketIdentity.PacketIdentityIsStable: assumes link objects that have not differed, which is necessary by PacketIdentity.NumbersAreUniqueIff.
- SystemResending.NumberedPacketIsSentBoundedly: states the gaps and the deadline for connections with one link object on that side; for several, NumberedPacketIsSentBoundedlyPerLink states the number of copies only.
- SystemLive.ConnectionStaysLive: reads all times off one clock.
- Completion.ReceivedStreamIsWrittenOut: excludes local read errors and cancellation, which discard pending output in the code; so does Delivery.DeliveredStreamIsWrittenOut.
- Sha1Object.HashPieces: says nothing of RFC 3174 at or above 2^29 octets, where only the padding is shown to differ.
- NameUuid.NameGenerator.Generate: equals section 4.3 of RFC 4122 only below 2^29 octets, for the same reason.
- Mutexes and races inside a handler: handlers are atomic steps, although the out side has four threads.
- A failed socket write that has transferred bytes: the handler is modelled, but in system runs such a write is taken to have transferred none.
- Sockets, resolver, timers, threads as library objects: only their outstanding operations and completions. A cancelled socket operation may fail at any time but is not obliged to.
- The trunk base class: client and server hold a trunk object instead of inheriting from it; `ProcessTrunkData` hands requests and their acknowledgements over to them instead of calling virtual methods.
- The assertion in `SendData` on late data: the model drops the packet, as a release build does.
- In-memory vectors shared by reference: caches and tables are sequences that methods reassign.
- Eventual delivery and guaranteed closing: packets expire after two seconds and the code makes no such promise.
- `ProcessAckData`: empty in the code.
- Server endpoint routing, statistics counters, tracing, `InLink`, configuration and both main programs: easy members.
- UUID generators other than the name-based one, `std::hash`, ordering, variant and version queries: foreign calls or single bit facts.
- Character types of UUID text: one character type; namespaces and UUIDs are byte sequences of one kind in `NameUuid` and of another in `UuidText`.
