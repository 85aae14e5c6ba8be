# puup: a verified model of the leased-channel transport and its signalling

puup tunnels byte streams over WebRTC data channels. A pool on each side leases a data channel to
one connection at a time, `Write` cuts a stream into messages of 4096 bytes, the receiving callback
cuts them again into the batches of a queue, and `Read` drains that queue through a `bufio.Reader`.
A websocket server keeps a registry of clusters so that the two sides can exchange session
descriptions and candidates.

The project models this in two layers that are proved to fit.

* State machines over values (`ChannelModel`, `Transport`, `LeaseWorld`, `Tunnel`, `PoolModel`,
  `PoolWorld`, `SignalModel`, `RegistryModel`). Events are what the network, the callbacks, the timers and the callers do. An
  event that cannot happen in a state leaves it alone, so a theorem about "every sequence of events"
  is about every interleaving. Panics are states, not excluded cases.
* Classes with the source's fields and methods (`Channels`, `Conns`, `Pools`, `SignalClient`,
  `Servers`). Each method's postcondition ties its new state to the function of the state machine
  that models it.

| file | source | subject |
|---|---|---|
| `Streams.dfy` | `net/conn/channel.go` | batches and the cutting of a byte string |
| `ChannelModel.dfy`, `ChannelProofs.dfy`, `ChannelTheorems.dfy` | `net/conn/channel.go` | one channel: leases, queue, buffered reader, interruptible callback |
| `Transport.dfy`, `Progress.dfy` | `net/conn/channel.go` | both ends of a channel over an ordered reliable message transport, in any of its leases |
| `Closing.dfy` | `net/conn/channel.go` | what closing does to the order of bytes when a Read is already waiting |
| `LeaseAlignment.dfy` | `net/conn/channel.go` | where the leases of the two ends line up |
| `Proxy.dfy` | `frontend/proxy.go`, `backend/proxy.go` | the port header in front of a forwarded stream |
| `Channels.dfy` | `net/conn/channel.go` | the objects, in place, and partial writes |
| `Conns.dfy` | `net/conn.go`, `net/listener.go` | the release-once wrapper and Accept |
| `LeaseWorld.dfy`, `ConnMarks.dfy`, `StaleConns.dfy` | all of the above | every holder of every channel at once, and what those who no longer hold one can do |
| `Tunnel.dfy` | `net/conn.go`, `net/conn/channel.go` | pairs of channels with connections at both ends |
| `Decimal.dfy`, `Labels.dfy` | `net/conn/addr.go`, `net/conn/peer.go` | label codec and dispatch |
| `PoolModel.dfy`, `PoolWrap.dfy`, `Pools.dfy` | `net/conn/channel-pool.go` | both ends' pools, and the label counter beyond 2^64 |
| `PoolWorld.dfy` | `net/clients.go` | a dialling pool and the world of holders in one run |
| `SignalModel.dfy`, `SignalTheorems.dfy`, `SignalDelays.dfy`, `SignalClient.dfy` | `net/conn/ws-sig.go` | the signalling client |
| `RegistryModel.dfy`, `Servers.dfy` | `server/server.go`, `server/ws.go` | the signalling server's registry and routing |
| `FileKeys.dfy` | `db/file/model.go` | the shared key space of two tables |
| `Options.dfy` | | the optional value |

## Where the code falls short of what one would expect

Each of these is proved twice: at a concrete input where it fails, and with the exact condition.

* A Read that is already waiting when the channel closes has passed its check: if a message is thrown
  away and the next one is not, it returns bytes out of order (`WaitingReadOvertaken`).
  `ClosingIsSafeExactlyWhen`: closing keeps the order in this lease and all later ones exactly when no
  Read waits on an empty open queue with the callback free.
* Releasing a connection while a message is still being queued closes the queue under the callback,
  whose next send panics (`ReleaseDuringMessagePanics`). `PanicsExactlyWhen` and `DoomedExactlyWhen`
  give every way to panic; `CarefulRunsNeverPanic` gives the discipline that excludes them.
* Once a data channel is closing, a lease can report its end with bytes still queued
  (`CloseLosesQueuedBytes`); `EofIsComplete` says exactly when the end means the end.
* The ends tell each other nothing when they take or release: bytes of two of the writer's leases can
  be read as one (`WriterLeasesMerge`); `LeasesLineUpExactlyWhen` gives the condition.
* A message on an idle dialling channel takes a lease that nobody holds (`LateMessageOrphans`,
  `OrphanExactlyWhen`), and nothing short of closing the channel ends it (`OrphanForever`).
* `Conn.Release` is guarded against stale connections, `Conn.Read` and `Conn.Write` are not
  (`StaleReadStealsFromLaterLease`, `StaleWriteEntersLaterLease`); `ForeignReadExactlyWhen` and
  `ForeignWriteExactlyWhen` say, from the state before the call, when they reach another connection's
  lease.
* After 2^64 attempts a pool repeats its labels, and the later channel takes over the entry of the
  earlier one (`WrapReplaces`); `LabelsMeetExactlyWhen` and `ReplacedExactlyWhen` say when.
* A label whose index does not fit `int` is printed but not parsed (`BigIndexFails`,
  `LabelRoundTrip`); a label with a sign or leading zeros is parsed (`SloppyLabelParses`) but filed
  under a string that is not its own (`FiledUnderOwnLabelExactlyWhen`).
* Closing a signalling session twice within the deletion delay panics (`DoubleClosePanics`,
  `ClosePanicsExactlyWhen`).
* One peer's full queue holds up the packets of every other (`OtherQueueHoldsUp`), until that peer's
  consumer takes one (`FullQueueHoldsUpEveryone`, `BlockedEndsExactlyWhen`).
* Closing a session while the dispatch loop is inside a send to it ends dispatch for every peer, for
  good (`CloseWhileWaitingEndsDispatch`); `DispatchGoesOnExactlyWhen` says after which runs packets can
  still be taken in.
* Two connections under one id break the registry (`DuplicateIdsBreakIt`); joins and leaves keep it
  right exactly under the conditions of `JoinAgreesExactlyWhen` and `LeaveAgreesExactlyWhen`.
* The server looks targets up by the sender's id, so a packet that names its sender truthfully is
  dropped (`HonestPacketDropped`) unless ids coincide across roles (`HonestPacketsArriveExactlyWhen`),
  and the client id it is given on the way is always empty (`RoutingIsolation`).

## Model

| member | source | states |
|---|---|---|
| Streams.FlattenChunks | net/conn/channel.go:38-44 | cutting into batches loses, adds and reorders no byte |
| Streams.ChunksShape | net/conn/channel.go:38-44 | every batch is non-empty and at most 4096 long, all but the last full, ceil(n/4096) of them |
| ChannelProofs.BufReadTakesFront | net/conn/channel.go:46-55 | the bufio reader over the queue refines a byte queue: it hands out the front and keeps the rest, exactly as much as the slice holds of the buffer or, with that empty, of the first batch, taking no more than that one off the queue; asked for nothing it changes nothing; ends exactly when closed and drained, blocks exactly when open and empty |
| ChannelProofs.ReadTakesFront | net/conn/channel.go:194-204 | the same, byte count included, for Channel.Read, which after close hands out only what is buffered; a call that has to wait is left waiting with its size |
| ChannelProofs.WakeTakesFront | net/conn/channel.go:46-55 | the receive a Read waits in: as much of the front batch as the slice holds, whether or not close came meanwhile, the end exactly when closed and drained, still waiting exactly when open and empty |
| ChannelProofs.RunKeeps | net/conn/channel.go:127-222 | over every sequence of events, waiting Reads of this lease and of earlier ones included: accepted = read ++ buffered ++ queued ++ unqueued rest for the current lease; for earlier ones read ++ what their readers still store is a prefix of accepted; delivered payload is the leases' payload in order; batch and queue bounds; announcements |
| ChannelTheorems.LeaseIsolation | net/conn/channel.go:127-171 | after a take in any reachable state, bytes read up to the next take are a prefix of what came in with and after it; nothing of an earlier lease appears |
| ChannelTheorems.PastReadsItsLease | net/conn/channel.go:46-55 | a Read still waiting when its lease is over and the channel taken again ends, at EOF exactly when its queue is empty, otherwise with as many of the next bytes of its own lease as its slice holds, and touches no other lease |
| ChannelTheorems.EofIsComplete | net/conn/channel.go:194-204 | a Read reporting EOF, at once or after a wait, has delivered the whole lease if and only if nothing is queued or being queued; always so when not closing, or after a wait, and no message is in progress |
| ChannelTheorems.CloseLosesQueuedBytes | net/conn/channel.go:194-200 | a dialled channel, closing, where Read reports EOF with an accepted byte unread |
| ChannelTheorems.AnnouncedOnce | net/conn/channel.go:127-141 | a lease taken by a message on an answering channel is announced at most once, exactly once before any payload reaches it; no other lease is announced |
| ChannelTheorems.PanicsExactlyWhen | net/conn/channel.go:27-55 | the exact events and states in which a step panics; a slice is never overrun and no queue closed twice |
| ChannelTheorems.DoomedExactlyWhen | net/conn/channel.go:164-171 | the exact events that leave the callback inside a closed reader |
| ChannelTheorems.DoomStays | net/conn/channel.go:38-44 | a doomed callback stays doomed and its next push panics, whatever happens in between |
| ChannelTheorems.CarefulRunsNeverPanic | net/conn/channel.go:127-171 | without Close, without releasing under a running callback and without reading an untaken channel, no sequence of events panics or sends to a closed queue |
| ChannelTheorems.ReleaseDuringMessagePanics | net/conn/channel.go:164-171 | a reachable panic on a dialled channel: release while a message is being queued |
| ChannelTheorems.LeaseDrains | net/conn/channel.go:38-55 | from every live lease, Reads of any one positive size with their waits and the callback's pushes read everything accepted |
| ChannelTheorems.DeliverIsRun | net/conn/channel.go:127-141 | OnMessage as far as it gets, with or without room in either queue, equals a sequence of its own take, announce and pushes |
| ChannelTheorems.PumpQueues | net/conn/channel.go:38-44 | into an open reader OnData queues exactly the first batches of the cut that fit its ten places and keeps the rest of the message |
| ChannelTheorems.FitsAtOnceExactlyWhen | net/conn/channel.go:31-44 | with nothing queued, a message is queued without waiting exactly when it has at most 40960 bytes |
| ChannelTheorems.NothingBeforeOpen | net/conn/channel.go:127-131 | in every run in which the data channel does not come up, nothing is delivered, read or announced |
| Transport.StreamConserved | net/conn/channel.go:206-222 | over every sequence of events at both ends and any number of leases: written = payload of the leases in order ++ message at the accept queue ++ in flight, and each lease has read a prefix of its own part |
| Transport.StreamFidelity | net/conn/channel.go:194-222 | in every lease, as long as no message was thrown away, the earlier leases' payload followed by what this one has read is a prefix of what was written |
| Transport.StreamExact | net/conn/channel.go:38-55 | in every lease, with all messages delivered and queued and no close, EOF means exactly everything written since the earlier leases was read |
| Closing.ClosingIsSafeExactlyWhen | net/conn/channel.go:46-55 | from any closing state that has lost nothing, every continuation reads in order, in this lease and later ones, if and only if no Read waits on an empty open queue with the callback free |
| Closing.WaitingReadOvertaken | net/conn/channel.go:127-131 | the run from fresh channels in which a Read waits, Close is called, and it returns the second of two written bytes |
| Progress.AllCanBeRead | net/conn/channel.go:127-141 | from every state of a live lease of any number there is a continuation of receiver events, for any read size, that reads exactly what was written since the earlier leases |
| LeaseAlignment.LeasesLineUpExactlyWhen | net/conn/channel.go:127-171 | in every run that throws nothing away, the receiver starts leases exactly where the writer did if and only if every first message of a writer's lease finds it idle or in a lease without payload, and no other message does |
| LeaseAlignment.LinedUpLeasesAreWriters | net/conn/channel.go:127-171 | when they line up, each receiver's lease with payload is the stretch of the stream from a start of the writer's, with none inside it, up to the next if the receiver has gone on |
| LeaseAlignment.WriterLeasesMerge | net/conn/channel.go:164-171 | the run in which the answering end writes in two leases and the dialling end reads them as one |
| Proxy.HeaderRoundTrip | frontend/proxy.go:69-70 | the two header bytes, high byte first, decode to the port, for all 65536 ports |
| Proxy.FillHeader | frontend/proxy.go:69-70 | the slice filled in place holds the big-endian port |
| Proxy.ServeHeader | backend/proxy.go:52-64 | a failed Read gives its error, another count than two the header error, port 0 the port error, and otherwise the big-endian port is dialled |
| Proxy.ServeDialsExactlyWhen | backend/proxy.go:52-64 | whatever the Read returned, a port is dialled exactly for two bytes not both zero, and it is the one they spell, high byte first; each refusal exactly for its case |
| Proxy.FirstReadIsHeader | backend/proxy.go:52-64 | in every lease that starts with the header: whatever is written and delivered, the first two-byte Read that returns data, at once or after a wait, returns exactly the header, and the port dialled is the port sent, 0 alone refused; a Read that waits while a message is thrown away is the exception |
| Proxy.PayloadIsTransparent | frontend/proxy.go:69-81 | in every such lease, with nothing thrown away, what is read is a prefix of header ++ payload, whatever the sizes, and all of it at EOF of a settled lease |
| Channels.ChannelReader.OnData | net/conn/channel.go:38-44 | queues exactly the batches of the cut that fit and returns the rest it waits with, or panics on a closed queue without queueing |
| Channels.ChannelReader.Read | net/conn/channel.go:46-55 | one batch into the slice, EOF, block, or panic when it does not fit |
| Channels.ChannelReader.Release | net/conn/channel.go:27-29 | closes the queue, panics the second time |
| Channels.BufReader.Read | net/conn/channel.go:160-160 | the bufio algorithm on its array equals the modelled read, and writes nothing past the count |
| Channels.BufReader.Receive | net/conn/channel.go:46-55 | its waiting part, entered again when the wait ends |
| Channels.Channel.TakeConn | net/conn/channel.go:150-163 | succeeds exactly when idle, with a fresh reader and buffer, otherwise changes nothing |
| Channels.Channel.Release | net/conn/channel.go:164-171 | closes the queue and goes idle from active, otherwise does nothing |
| Channels.Channel.Close | net/conn/channel.go:173-182 | status closed and closing signalled, nothing else |
| Channels.Channel.Read | net/conn/channel.go:194-204 | equals the modelled read, on the caller's array, leaving a call that waits on record |
| Channels.Channel.Resume | net/conn/channel.go:46-55 | a call that waited goes on past its check of close and equals the modelled receive |
| Channels.Channel.OnMessage | net/conn/channel.go:127-141 | both branches of the select: ignores or waits without change, or equals the modelled delivery as far as the ten-place and hundred-place queues let it, and pushes the channel to the accept queue exactly when it took an idle answering one and there was room |
| Channels.Channel.Write | net/conn/channel.go:206-222 | for every outcome of every turn: the batches sent, which turn gives which error, and the count, which includes the batch whose send failed and is 0 when close is seen |
| Channels.PartialWrites | net/conn/channel.go:206-222 | what is sent is a prefix made of full batches; nil error means all of it, in ceil(n/4096) messages, with the full count; a failed send is counted though its batch did not go out, close is counted as 0, so with an error the count equals the bytes sent only when close is seen first |
| Conns.Conn.Release | net/conn.go:129-137 | the first call releases the channel, later ones leave it alone |
| Conns.Conn.Close | net/conn.go:139-149 | releases once and marks closed; a panic in between leaves it unmarked |
| Conns.Conn.Write | net/conn.go:119-127 | a closed connection sends nothing, a released one that is not closed still writes, with the channel's count and error |
| Conns.Listener.Accept | net/listener.go:53-63 | wraps the head of the queue in a fresh unreleased connection and removes it; either branch when also closed |
| LeaseWorld.ExclusiveLease | net/conn.go:129-149 | over every sequence of dials, messages, announcements, accepts, reads, waits, writes, releases and closes, no channel has two unreleased holders, and a holder's lease is the current one |
| LeaseWorld.OneOwnerPerLease | net/listener.go:53-63 | each lease goes to at most one connection ever, released ones included |
| LeaseWorld.StaleReleaseIsHarmless | net/conn.go:129-149 | Release or Close of a released connection changes no channel; otherwise it ends exactly its own lease; it marks that connection, as closed for Close alone, and nothing else in the world changes |
| LeaseWorld.HolderReadsItsLease | net/conn.go:89-117 | an unreleased connection reads its own lease and cannot crash |
| ConnMarks.MarkedExactlyWhen | net/conn.go:129-149 | over every run a connection is closed exactly when a Close of it happened, and released exactly when a Release or Close did |
| ConnMarks.WritesExactlyWhen | net/conn.go:119-127 | over every run a Write changes nothing once the connection was closed, and otherwise adds exactly the bytes of the batches sent to the current lease's stream |
| ConnMarks.CloseEndsWriting | net/conn.go:139-149 | after a Close, whatever follows, that connection's Writes send nothing |
| ConnMarks.AcceptedInOrder | net/listener.go:53-63 | over every run leases are accepted in the order announced, none lost and none twice, with at most 100 waiting |
| LeaseWorld.OrphanExactlyWhen | net/conn/channel.go:127-141 | an active lease without a holder comes about exactly when a message takes an idle channel that does not announce |
| LeaseWorld.OrphanForever | net/conn/channel.go:150-171 | such a lease stays, and the channel can never be dialled again, until the channel is closed |
| StaleConns.LateMessageOrphans | net/conn/channel.go:127-141 | the run dial, release, late message that makes one |
| StaleConns.ForeignReadExactlyWhen | net/conn.go:89-117 | after every run, a Read of a connection, or its wait going on, takes bytes of a lease other than its own if and only if the lease it reads from is not its own and, in the state before, there is a byte for it |
| StaleConns.StaleReadStealsFromLaterLease | net/conn.go:89-117 | an answering channel leased, released and leased again by messages: the first connection reads the second one's byte |
| StaleConns.StaleIsReleased | net/conn.go:129-137 | only a released connection can find its channel taken again |
| StaleConns.EveryWaitIsSomeones | net/conn.go:89-117 | over every run, a Read that waits, in whichever lease of a channel, belongs to a known connection of that channel |
| StaleConns.ForeignWriteExactlyWhen | net/conn.go:119-127 | a Write enters the stream of a lease other than its own if and only if the connection is not closed, the channel has been taken again, and a byte goes out |
| StaleConns.StaleWriteEntersLaterLease | net/conn.go:119-127 | the same channel: the first connection's byte enters the second lease |
| Tunnel.NetLinesUpExactlyWhen | net/conn/channel.go:127-222 | over every run of paired channels with pools, listeners and connections at both ends, each direction of each pair keeps the link's invariants, and its leases line up with the other end's exactly when every message arrives on its cue |
| Tunnel.LeaseReadsLease | net/conn.go:89-127 | then what was read in a lease is a prefix of what went out in one lease of the other end |
| Tunnel.ReadsWhatThePeerWrote | net/conn.go:89-127 | over every such run with nothing thrown away and no write into a lease not its writer's own, what was read in a connection's lease is a prefix of what one connection of the other end wrote |
| Tunnel.OneByteTunnelled | net/clients.go:111-118 | such a run: a byte written by a dialling connection and read in the lease of the one accepted for it |
| Decimal.AtoiOfDec | net/conn/addr.go:97-97 | a printed number is parsed back exactly within the platform's int |
| Decimal.AtoiExactlyWhen | net/conn/addr.go:97-97 | a string is accepted as a number exactly when it is digits after at most one sign whose value fits the platform's int, and that is the number |
| Labels.LabelRoundTrip | net/conn/addr.go:92-105 | a printed label parses to itself exactly when the index is below 2^63 (2^31 on 32-bit) and the type prints as itself; above the bound it fails |
| Labels.KnownTypesRoundTrip | net/conn/addr.go:17-49 | the six types print as themselves and parse back; every other type prints as unknown |
| Labels.ParsesExactlyWhen | net/conn/addr.go:92-105 | a label parses exactly when it is two parts around one colon, the second a number that fits |
| Labels.NegativeIndexWraps | net/conn/addr.go:97-105 | a negative index is accepted and wraps |
| Labels.BigIndexFails | net/conn/addr.go:97-97 | the labels of index 2^63, and 2^31 on 32-bit, do not parse, the ones before do |
| Labels.PrintInjective | net/conn/addr.go:28-49 | printing separates indexes for all types and labels for the known ones |
| Labels.PrintOfParsed | net/conn/addr.go:92-105 | a parsed label prints back as it was exactly when it was canonical |
| Labels.SloppyLabelParses | net/conn/addr.go:97-97 | a signed index is accepted |
| Labels.PrintedGoesToPool | net/conn/peer.go:115-132 | every printed label is dispatched to the pool |
| Labels.DispatchExactlyWhen | net/conn/peer.go:115-132 | the two special names go to their loops, and everything else to the pool |
| FileKeys.FileKeyInjective | db/file/model.go:22-24 | file keys determine etag and size for all strings |
| FileKeys.KeysArePrefixed | db/file/model.go:22-34 | the exact form of both keys |
| FileKeys.UserFileKeyInjective | db/file/model.go:32-34 | user-file keys determine the path |
| FileKeys.KeysMeetExactlyWhen | db/file/model.go:22-34 | a file key equals a user-file key exactly when the etag is "user" or starts with "user/" and the path is the remainder |
| FileKeys.HexEtagsAreSeparate | db/file/model.go:22-34 | for hexadecimal etags the tables never interfere |
| PoolModel.GetKeeps | net/conn/channel-pool.go:67-111 | success files the channel as active under its own label, out of the idle map and no longer takeable; failure leaves both maps; a new channel is made only when none could be taken, and only an untakeable entry is dropped |
| PoolModel.GetExactly | net/conn/channel-pool.go:67-111 | which answer a Get gives, from the state before, and exactly what moves between the maps, the label made and the counter |
| PoolModel.DiallingRun | net/conn/channel-pool.go:57-111 | below 2^64 creations, over every sequence of events: labels distinct, entries under their own label, idle and active disjoint |
| PoolWrap.NumberedRun | net/conn/channel-pool.go:94-95 | over every dialling run, without a bound: the counter is the number of attempts mod 2^64, each label carries its attempt's number mod 2^64, and every entry is under its own label |
| PoolWrap.LabelsMeetExactlyWhen | net/conn/channel-pool.go:94-95 | in every dialling run, two channels have one label exactly when their types print alike and their attempts are a multiple of 2^64 apart |
| PoolWrap.ReplacedExactlyWhen | net/conn/channel-pool.go:71-111 | after every dialling run, a Get changes the entry of an active channel if and only if, before the call, it would take an idle one of the same label, or make one whose type prints alike at an attempt a multiple of 2^64 after that channel's |
| PoolWrap.WrapReplaces | net/conn/channel-pool.go:71-76 | the run of 2^64 + 1 Gets in which the last channel takes the entry of the first |
| PoolModel.AnsweringRun | net/conn/channel-pool.go:113-128 | over every sequence of opens, repeats included, and release moves, idle and active labels together are exactly the labels opened |
| PoolModel.EntryStays | net/conn/channel-pool.go:57-62 | no existing entry is replaced |
| PoolModel.FiledUnderOwnLabelExactlyWhen | net/conn/channel-pool.go:116-125 | an opened channel is filed under its own label exactly when the raw label is canonical |
| PoolModel.PoolsAgree | net/conn/channel-pool.go:93-128 | below the index bound every dialled label is dispatched to the answering pool, parses, and the answering pool holds exactly the ones opened |
| Pools.ChannelPool.Get | net/conn/channel-pool.go:67-111 | takes an idle channel when the search can find one, otherwise makes one with the next label, or fails with both maps unchanged; what is dropped and filed, and that no other channel changes |
| Pools.ChannelPool.Create | net/conn/channel-pool.go:93-110 | the creation loop ends in its first turn |
| Pools.ChannelPool.OnChannelOpen | net/conn/channel-pool.go:113-128 | files a fresh idle answering channel under the raw label unless that is taken or does not parse |
| Pools.ChannelPool.Released | net/conn/channel-pool.go:57-62 | moves a channel to the idle map |
| PoolWorld.GetIsDial | net/clients.go:111-118 | what Get hands out is a channel nobody held, and wrapping it makes the one connection that holds it and touches no other channel; a failed Get leaves the world as it was |
| PoolWorld.PoolInWorld | net/conn/channel-pool.go:57-111 | over every joint run of a pool and a world of other pools, answering channels, messages and releases: what the pool can take is what is idle there, no channel has two holders, and below 2^64 attempts the pool's entries are in order |
| PoolWorld.PoolRunsByItself | net/conn/channel-pool.go:50-66 | the pool in every joint run is the pool run by itself through its Gets, its filings and the news of which channels are idle, so the results about its runs hold there |
| SignalModel.RunKeeps | net/conn/ws-sig.go:81-134 | over every interleaving: stored sessions, newest per id, timers, announcements, queue bounds and conservation |
| SignalTheorems.DeletionIsSafe | net/conn/ws-sig.go:81-95 | a deletion is pending, once, exactly when the stored session is closed; firing it leaves every open session stored |
| SignalTheorems.ClosePanicsExactlyWhen | net/conn/ws-sig.go:52-61 | closing panics exactly while the deletion of that id is pending |
| SignalTheorems.ClosedReceivesNothing | net/conn/ws-sig.go:112-134 | a closed session is never given anything again |
| SignalTheorems.AnnouncedAndConserved | net/conn/ws-sig.go:97-110 | each lifetime is announced exactly once, in order; consumers get what was given, in order |
| SignalTheorems.DemultiplexingRefines | net/conn/ws-sig.go:174-199 | for every id, what its sessions were given is that of a client that hears only the events of that id; content only, not timing |
| SignalTheorems.TakesInHand | net/conn/ws-sig.go:190-198 | a packet changes nothing when it names no peer or a closed session; otherwise its candidate and then its description are in hand for the session of its id |
| SignalTheorems.LifetimeIsFilter | net/conn/ws-sig.go:174-199 | while a session is open, given ++ in hand grows by exactly the candidates and descriptions addressed to its id, in arrival order |
| SignalTheorems.EmptyIdGetsNothing | net/conn/ws-sig.go:190-192 | a session under the empty id is never given anything |
| SignalDelays.BlockedEndsExactlyWhen | net/conn/ws-sig.go:112-134 | a loop held up by a full queue stays so until exactly that session's consumer takes one or that session is closed; a close while it is inside the send, and nothing else short of a second close, ends dispatch |
| SignalDelays.FullQueueHoldsUpEveryone | net/conn/ws-sig.go:174-199 | without that consumer, whatever happens, a close of the session included once the loop is inside the send, no packet for any id is taken in and no session is given anything |
| SignalDelays.OverBeginsExactlyWhen | net/conn/ws-sig.go:52-61 | from any state, the events that end dispatch: a second close before the deletion, or a close of the session at whose full queue the loop waits, and no other |
| SignalDelays.OverForEveryone | net/conn/ws-sig.go:155-162 | after a close under a blocked send, or a stop, no packet for any id is ever taken in and no session given anything, whatever happens |
| SignalDelays.LoopStopsExactlyWhen | net/conn/ws-sig.go:112-134 | the loop stops exactly when it goes on with a send blocked on a session closed since, and then no packet for any id is taken in over any continuation |
| SignalDelays.DispatchGoesOnExactlyWhen | net/conn/ws-sig.go:174-199 | after every run, some continuation takes packets in again if and only if nothing panicked, the loop has not stopped and is not inside a send to a closed session |
| SignalDelays.ConsumerLetsGo | net/conn/ws-sig.go:112-134 | in every such state the consumer of the session in hand alone can bring the loop back to reading |
| SignalDelays.OtherQueueHoldsUp | net/conn/ws-sig.go:44-45 | two descriptions for one peer hold up a packet for another |
| SignalDelays.CloseWhileWaitingEndsDispatch | net/conn/ws-sig.go:52-61 | closing the first peer's session then leaves no continuation that takes in a packet for anyone |
| SignalDelays.DoubleClosePanics | net/conn/ws-sig.go:52-61 | the run ask, close, close panics, and not before |
| SignalClient.Session.Close | net/conn/ws-sig.go:52-61 | marks closed, panics the second time |
| SignalClient.Session.OnIceCandidate | net/conn/ws-sig.go:124-134 | skips nil and closed, queues in order, waits when five are queued |
| SignalClient.Session.OnSdp | net/conn/ws-sig.go:112-122 | skips nil and closed, queues, waits when one is queued |
| SignalClient.WsSigClient.GetSession | net/conn/ws-sig.go:97-110 | returns the stored session, or stores and announces a new one |
| SignalClient.WsSigClient.Lookup | net/conn/ws-sig.go:190-197 | a packet's session is found or made, and the packet is in hand for it exactly when it is open |
| SignalClient.WsSigClient.GiveIce | net/conn/ws-sig.go:197-197 | the candidate in hand reaches that session's queue, or is dropped or waits, and no other session changes |
| SignalClient.WsSigClient.GiveSdp | net/conn/ws-sig.go:198-198 | the same for the description |
| SignalClient.WsSigClient.CloseSession | net/conn/ws-sig.go:81-95 | closes and schedules deletion, or panics when already closed |
| SignalClient.WsSigClient.Delete | net/conn/ws-sig.go:90-94 | deletes whatever is stored under the id |
| RegistryModel.JoinAgreesExactlyWhen | server/server.go:39-56 | a join keeps registry and live connections in agreement exactly when nothing is registered under its role, cluster and id |
| RegistryModel.LeaveAgreesExactlyWhen | server/ws.go:46-53 | a leave keeps it exactly when no other connection is registered under its header |
| RegistryModel.RegistryAgrees | server/server.go:83-130 | with unique live connections, over every sequence of joins, packets and leaves: backends are exactly the live ones, no cluster without one is registered, frontends are exactly those admitted since the cluster last got its first backend |
| RegistryModel.AdmittedExactlyWhen | server/ws.go:55-64 | in every such run a connection is let in exactly when it is a backend, or a frontend of a registered cluster, and exactly then it has its place in the registry |
| RegistryModel.DuplicateIdsBreakIt | server/server.go:83-94 | two backends under one id: after the first leaves the second is live and unregistered |
| RegistryModel.RoutingIsolation | server/ws.go:66-93 | every packet of every run with unique live connections is forwarded exactly to the live client of the opposite role in the sender's cluster that has the claimed sender id, with an empty target id, and otherwise to no one |
| RegistryModel.HonestPacketsArriveExactlyWhen | server/ws.go:76-86 | a packet carrying its sender's own id is dropped if and only if no opposite client in the cluster has that id |
| RegistryModel.HonestPacketDropped | server/ws.go:76-86 | one backend, one frontend: the frontend's packet is dropped under its own id and forwarded under the backend's |
| Servers.Server.AddBackend | server/server.go:39-56 | registers the backend, creating the cluster if need be |
| Servers.Server.DelBackend | server/server.go:83-94 | removes the backend and, with the last one, the cluster |
| Servers.Server.AddFrontend | server/server.go:96-109 | registers the frontend exactly when the cluster exists |
| Servers.Server.DelFrontend | server/server.go:122-130 | removes the frontend |
| Servers.Server.GetBackends | server/server.go:57-69 | n empty strings, then the n backend ids, each once |
| Servers.Server.HandleWs | server/ws.go:25-94 | registration, routing of each packet against whatever the registry is by then, rejection, and deregistration in all cases |

## Left out

- The data channel, SCTP, DTLS and the websocket library: only ordered, reliable message delivery (section 6.6 of RFC 8831) is assumed, which `net/conn/channel-pool.go:96-99` asks for.
- Data races: `Channel.status` and the pool maps under a read lock are unsynchronised in the source; each method is one atomic step here, except that OnMessage is split at its blocking sends and OnData at every batch.
- Channels.Channel.Read: at most one Read at a time waits on a channel's reader, as `bufio.Reader` asks of its callers; two at once race in the source.
- Tunnel.ReadsWhatThePeerWrote: both ends of a data channel come up together; how the two pools agree on its label is in `PoolModel.PoolsAgree`.
- Proxy.FirstReadIsHeader: is about headers written while the receiver rests between leases; a header written into a lease that the receiver still holds joins that lease, as `LeasesLineUpExactlyWhen` says.
- Offer and answer negotiation (`net/conn/peer-sdp.go`, Connect and Listen in `net/conn/peer.go`): the dialling peer waits on an empty remote id that dispatch skips, so its completion does not follow from the code.
- Read deadlines of Conn.Read: the timer is stopped before it is returned; the call is treated as the channel's Read.
- The remote disconnect command (`ChannelPool.OnRelease`): it releases a channel behind its connection, and nothing in the repository sends it.
- The choice of channel in `LeaseWorld`: a dial there may take any idle channel, which covers every pool and every order of search; `PoolWorld` shows that each Get is such a dial.
- The release queue of the pool: nothing sends on it, so the move it causes is an event that may happen at any time.
- Reuse by type: Get reuses any idle channel whatever its type, so no type match is claimed.
- Conns.Listener.Accept: peers, reconnection of the signalling client and the listener's event loop are not modelled.
- SignalModel.RunKeeps: a check of the closed flag and the send after it are one step unless the send blocks; the blocking of OnSession on its own queue is not modelled.
- Servers.Server.HandleWs: what the other connections' handlers do in between is a parameter; their joins and leaves are in `RegistryModel`. A failed send is an end of the packets.
- Channels.Channel.Write: how long a turn waits for `open` or `close` is not modelled, only how it ends.
- File storage, reference counts, previews, downloads, SSH, terminal, web pages, configuration, logging and the command-line programs.
