# Bridge proofs

Sven Co-op's game traffic is UDP; this bridge carries it over Reticulum links. These Dafny files
model the parts of the bridge and of its control panel in which something can go wrong quietly, and
prove what they keep:

- **The datagram pipeline.** `Framing` is the chunk format and the reassembler. `Intake` is one
  receiving end: a channel of 256 chunks that refuses what it has no room for, and the reader behind
  it. `Logs` is what can be observed of a node. `ServerRelay` and `ClientRelay` are the two nodes as
  transition systems, every task of the program being free to move at any time, up to the locks of
  the maps they share; `EndToEnd` joins them by links that bring some of what was sent on them, in
  order. `ServerInvariant` and `ClientInvariant` (beside the models) and `ServerSafety` and
  `ClientSafety` hold what every step keeps and what follows for every run. `ServerRuns` and
  `ClientRuns` tie every log, map and task to the steps of the run, and `ClientPackets` shows that
  the client loses no packet inside. `ServerEnds` says what a relay leaves behind when it stops, `ServerFlow` and `ClientFlow` when
  nothing is refused, `ClientListener` when the client's listener is stuck, and `ClientSources` how
  many links the client opens for one source.
- **Sessions and saved state.** `Lifecycle` is the shutdown protocol between a caller and the node
  threads it starts. `Controller` is `BridgeController` over a settings file, every operation as a
  method proved equal to a function of the old state. `Histories` is what every list of operations
  keeps, crashes between and inside operations included, and `Starts` that what an operation is
  given is what runs, is saved and is brought back. `Upserts` is the "find and overwrite, else
  push" list behind the saved interfaces (`Interfaces`) and the server browser (`ServerBrowser`).
- **Text and packet parsers.** `Ansi` and `Progress` are the escape stripper and the steamcmd
  progress parser with a printer of such lines; `A2s` is the decoder of A2S_INFO and A2S_PLAYER
  replies with an encoder after the "Response Format" sections of Valve's "Server queries", and
  `A2sFormats` its code tables and the old reply format; `Mapcycle` is the repair of the map cycle
  file, down to the characters. `Specimens` holds the character classes, limits and texts of the last
  three against literal ones.

`Basics` and `Text` hold what they share. To check the project, give Dafny 4.11 all its files, with a
limit on resources instead of time, so that the outcome does not depend on the machine:

    dafny verify --resource-limit 8000000 --verification-time-limit 0 dfyconfig.toml

How the concurrent parts read: a `Step` is what one task does between two points at which another
may run, `Enabled` says when it can, and `Do` what it changes; a path is a list of states with the
steps between them, and a run is a path from the start of the node. A theorem about `Reachable`
states is about every interleaving. Logs of packets, chunks and writes are part of the state, so that
safety is stated about what went in and out and not about the buffers.

The code differs from what is written about it in some places; the model follows the code:

- README.md:64 speaks of 384-byte chunks, src/lib.rs:11-12 of one datagram per packet; the chunk is
  1900 bytes (src/framing.rs:24) and long datagrams are framed.
- README.md:74-75 has the next packet open a new link after a close. `LinkClosed` only clears
  `link_data` (src/relay.rs:514-516), so packets of that source go on to the old task while
  `udp_links` names it. `NotReestablished` is such a run; `NeverReestablished` says that it goes on
  like that for good, unless an empty packet of the source arrives or a command of its task is
  refused.
- "Each distinct client source address gets its own Link" (README.md:74) is not a bound: packets
  that arrive during an establishment each start one (src/relay.rs:546-562); `TwoLinksForOneSource`
  is such a run, and `OneLinkPerSource` says exactly when it is a bound after all. `PacketsNotShared`
  and `ClientSafety.Upstream` are proved under this race.
- Nothing is said of the listener ever stopping to listen. It does: it looks a channel up under the
  read lock of `udp_links` and, should the channel be closed, waits for the write lock with the read
  lock in hand (src/relay.rs:546-549). An empty packet closes a channel (src/relay.rs:616-618), so
  `ListenerCanGetStuck`; `ListenerStuck` says exactly when. In the same way the server's router holds
  the lock of `link_senders` while it waits to send the empty chunk (src/relay.rs:363-365);
  `RouterStuck` says exactly when that is for ever.
- "Ordering" (src/relay.rs:5) is all that the theorems about both ends ask of a link: a chunk may be
  lost on the way, since each is sent once.
- The guard "to avoid unbounded growth" (src/framing.rs:67-69) is looked at on final chunks only;
  `ReassemblyIsSegments` says what is held in between.
- The byte counts of a progress line, called optional (controller/src/steamcmd.rs:85), are required:
  `CountsRequired` says so of every line, and `CountlessRefused` shows one.
- `svencoop1` is not moved to the front (controller/src/ds.rs:678-679) but swapped with the first
  line; `SwapIsMove` says exactly when that is the same, and `SwapIsNotMove` shows a file where not.
- Resuming keeps the interface list for descriptors as the add methods write them; for a hand-edited
  file it can duplicate an entry (`UnshapedIsDuplicated`), and `ResumeStable` says exactly when not.

## Model

| member | source | states |
|---|---|---|
| Framing.Frame | src/framing.rs:30-48 | The loop makes the chunks `Chunks(datagram)`, the empty datagram included. |
| Framing.FrameExact | src/framing.rs:28-48 | The wire format admits a chunk list for a datagram iff it is the one `frame` makes: headers 1 on the last chunk and 0 before, full chunks before the last, an empty last chunk only alone, bodies spelling the datagram. |
| Framing.ChunkCount | src/framing.rs:36-48 | The number of chunks is 1 for the empty datagram and otherwise the length divided by 1900, rounded up; so 5 for a read of 8192. |
| Framing.StreamHasNoEmptyChunk | src/framing.rs:31-46 | No stream of framed datagrams has an empty chunk, the value the server uses as closing sentinel. |
| Framing.ChunksPrefixFree | src/framing.rs:12-13 | Framings delimit themselves: two streams that begin with whole framings and are equal begin with the same datagram. |
| Framing.StreamInjective | src/framing.rs:12-14 | Different datagram lists have different chunk streams. |
| Framing.Reassembler.constructor | src/framing.rs:52-55 | A new reassembler holds nothing. |
| Framing.Reassembler.Push | src/framing.rs:58-78 | New buffer and result of one push: an empty chunk changes nothing, a non-final one is appended, a final one empties the buffer and returns it unless it is over 65,535 bytes. |
| Framing.Reassembler.Reset | src/framing.rs:80-82 | The buffer is empty afterwards. |
| Framing.ReassemblyIsSegments | src/framing.rs:57-78 | For every chunk sequence, framed or not, exactly the bodies between consecutive final chunks come out, those over 65,535 bytes left out, and the bodies since the last final chunk are held. |
| Framing.FeedOneDatagram | src/framing.rs:57-78 | Any selection of the chunks of one datagram has the effect of appending its kept bytes and, if the final chunk is among them, emitting the buffer. |
| Framing.LossyReassembly | src/framing.rs:57-78 | For every list of datagrams and every pattern of lost chunks: a datagram comes out at each kept final chunk, and is the kept bytes of all datagrams since the previous one, under the guard. |
| Framing.WholeDatagramVerbatim | src/framing.rs:50-78 | A datagram of at most 65,535 bytes whose chunks are all kept comes out verbatim at its own final chunk if no chunk was kept since the last kept final chunk. |
| Framing.StreamRoundTrip | src/framing.rs:30-78 | Without loss exactly the datagrams of at most 65,535 bytes come out, in order, empty ones included, and the buffer ends empty. |
| Framing.SingleChunkRobust | src/framing.rs:18-24 | If every datagram is at most 1900 bytes, any loss leaves a subsequence of the datagrams, none altered or merged. |
| Framing.LostRunExact | src/framing.rs:65-78 | The run length used by the guard bound is the number of datagrams in a row, at the end, that lost their final chunk, and no more. |
| Framing.PendingBound | src/framing.rs:57-66 | With reads of at most 8192 bytes at most 7600 bytes are held per datagram that lost its final chunk since the last kept one. |
| Framing.GuardNeedsEightLosses | src/framing.rs:67-73 | A completed datagram has at most 7600 r + 8192 bytes after r such losses, so the 65,535 guard fires only after at least eight in a row. |
| Framing.GuardFiresAfterEight | src/framing.rs:70-73 | Eight losses in a row can make it fire: the bound is exact. |
| Intake.TakeHolds | src/relay.rs:313-321 | A reader's step keeps: taken and queued chunks are those handed over, and its output and buffer are the reassembly of those taken. |
| Intake.IntakeIsLossy | src/relay.rs:312-323 | If the chunks a reader took are some of a framed stream, in order, its output is a lossy image of the datagrams. |
| Intake.LossyImageOfSmall | src/framing.rs:18-23 | Such an image of datagrams of at most 1900 bytes only lacks datagrams. |
| Intake.BufferBound | src/framing.rs:57-74 | The buffer of a reader that took some of a framed stream, in order, is the one of the datagram level and within the guard bound. |
| Intake.LineConserves | src/relay.rs:368-372 | In every run of arrivals and reads the queue holds at most 256 and taken plus queued chunks are the arrived ones less those refused. |
| Intake.LineIsLossy | src/relay.rs:312-372 | Every run's output is a lossy image of the datagrams framed, whatever the network lost before the channel and whatever the channel refused. |
| Intake.UndrainedBound | src/relay.rs:328-333 | With at most 5 chunks a datagram, at most 5 per undrained datagram are in the channel. |
| Intake.SizesBound | src/relay.rs:328-333 | A read of at most 8192 bytes brings at most 5 chunks to the other end, whatever the network loses. |
| Intake.NoDropFlow | src/relay.rs:288-372 | If at every moment at most 51 datagrams have an arrived and undrained chunk, no chunk is refused: the output is the start of what the network's own losses leave, and of the datagrams themselves if it loses nothing. |
| Intake.FiftyTwoCanDrop | src/relay.rs:288-371 | With 52 a chunk can be refused. |
| Logs.HandedIsFiltered | src/relay.rs:368-376 | What a task's channel took of its link is what arrived on the link less some chunks, in order. |
| Logs.SoleUser | src/relay.rs:336-345 | A link whose only user is one task carries exactly what that task issued. |
| ServerInvariant.StepKeeps | src/relay.rs:274-379 | Every step of router, relay, reader and pump keeps the invariant: map entries lead to relays of that link, no task touches another's link, channels and reassembly agree with the logs, a closed link's relay cannot be reached, the sentinel is the last thing a channel takes. |
| ServerInvariant.ReachableInv | src/relay.rs:274-379 | So the invariant holds after every run. |
| ServerSafety.Safety | src/relay.rs:288-376 | In every reachable state: own link only in both directions, at most 256 queued, issued chunks are the start of the framing of the datagrams logged as read, datagram after datagram, and all of it when the relay has nothing in hand; and what was sent to the game server is the reassembly of the chunks taken, less the last datagram if its send failed. |
| ServerSafety.OutputIsLossy | src/relay.rs:311-323 | What a relay writes to the game server is a lossy image of what its link's peer framed, if the link brings some of the chunks sent on it, in order. |
| ServerSafety.FreshRelays | src/relay.rs:284-289 | If the engine reports no link as established twice, no two relays ever have the same link. |
| ServerSafety.BufferAtRelay | src/framing.rs:65-74 | The guard bound at every relay of a reachable state: its buffer is that of some loss of chunks of what the peer framed, with at most 7600 bytes for each datagram in a row whose final chunk it did not take, so a chunk trips the guard only with nine such, the one it completes included. |
| ServerRuns.ReadIsLogged | src/relay.rs:328-333 | In every run the datagrams logged for a relay are exactly the non-empty ones that the game server sent to it, in order. |
| ServerRuns.IssuedIsFramed | src/relay.rs:328-347 | What a relay has issued is the start of the framing of those datagrams, what it has in hand is the rest, and with nothing in hand it has issued all of it. |
| ServerRuns.EventsInOrder | src/relay.rs:274-283 | The events handled by the router and those that wait are those reported, in order. |
| ServerRuns.ArrivalsAreRouted | src/relay.rs:368-376 | The arrivals on a link are exactly the link data that the router has handled. |
| ServerRuns.ChunkGoesTo | src/relay.rs:369-375 | A chunk is dropped iff its link has no relay, the relay's reader has ended, or 256 chunks wait; otherwise it is the last in the channel of that relay. |
| ServerRuns.OneRelayForEachLink | src/relay.rs:284-293 | In every run the relays are, in order, those of the links that the router was told of, one for each. |
| ServerRuns.EveryReaderServed | src/relay.rs:362-365 | In every run a relay whose reader is alive can be reached by the router, is being closed, or has the closing empty chunk; no relay that has ended can be reached. |
| ServerRuns.CloseIsPassedOn | src/relay.rs:362-365 | A close takes the relay of the link out of the router's reach and puts the empty chunk last into its channel, as soon as there is room, unless the reader has ended. |
| ServerRuns.RelayExactly | src/relay.rs:284-365 | Where the data of a link goes at any point of a run: to the relay started for it, to none after a close or after that relay has ended. |
| ServerRuns.ReaderExactly | src/relay.rs:311-323 | A relay's reader is alive at any point of a run iff none of the steps was a failed bind, an empty chunk, a failed send, or the loss of all senders. |
| ServerRuns.PumpExactly | src/relay.rs:325-354 | Its pump is alive iff no step was a failed bind, a failed read or a refused command. |
| ServerRuns.PhaseExactly | src/relay.rs:293-360 | Where a relay is at any point of a run follows from the last of its binds and its end. |
| ServerRuns.PumpCanFinish | src/relay.rs:333-345 | A running pump can always issue all it has in hand. |
| ServerRuns.CanStart | src/relay.rs:284-310 | From every state in which the router has nothing else to do, a link that is reported can get a running relay. |
| ServerRuns.CanRelayBack | src/relay.rs:328-347 | A running relay can issue the whole framing of any datagram of at most 8192 bytes that the game server sends next. |
| ServerRuns.CanRelayOn | src/relay.rs:312-372 | A chunk on the link of a running relay can reach the reader, and what it completes the game server. |
| ServerRuns.CanClose | src/relay.rs:312-365 | A close can end the reader and take the link out of the router's reach. |
| ServerRuns.ReaderCanFinish | src/relay.rs:312-322 | A running reader can always empty its channel, or it ends. |
| ServerEnds.StoppedReader | src/relay.rs:295-323 | In every run a stopped reader has left chunks in its channel iff a step of the run ended it with others behind: a failed bind, a failed send, or an empty chunk that is not the last. |
| ServerEnds.OrderlyLosesNothing | src/relay.rs:312-323 | There is no such step in a run in which no bind or send of the relay fails and the peer sends no empty chunk. |
| ServerEnds.DrainsBeforeStopping | src/relay.rs:311-365 | In such a run a reader that stopped has processed everything its channel ever took. |
| ServerEnds.FailedSendLoses | src/relay.rs:317-320 | A run in which a failed send loses the datagram and the chunk queued behind it. |
| ServerEnds.RouterStuck | src/relay.rs:295-365 | A router that waits to send the empty chunk waits for ever iff the channel is full and the bind of its relay has failed. |
| ServerEnds.RouterCanBlock | src/relay.rs:295-365 | That state can be reached. |
| ServerFlow.RelayInFlow | src/relay.rs:284-372 | In every run of the server: a relay whose channel is there from the first arrival on and holds chunks of at most 51 datagrams at every moment is refused nothing, and writes the start of what the network leaves, of the datagrams themselves if it loses nothing. |
| ClientInvariant.StepKeeps | src/relay.rs:498-651 | Every step of listener, router and link tasks keeps the invariant, races for one source, overwritten or removed map entries and the lock of `udp_links` included. |
| ClientInvariant.ReachableInv | src/relay.rs:498-651 | So the invariant holds after every run. |
| ClientSafety.Upstream | src/relay.rs:592-630 | In every reachable state a task frames packets of its own source in order of arrival, its first packet first, each at most once; what it issued is the start of their framing, all of it when nothing is in hand, and its link carries that and nothing else; and every packet meant for the task is framed, in its channel, the empty one that ended it, the first while there is no link, or in the hands of the listener. |
| ClientSafety.PacketsNotShared | src/relay.rs:546-562 | No packet is framed by two tasks, however many race for one source. |
| ClientPackets.PacketsInOrder | src/relay.rs:546-618 | In every run, what a task whose channel is open has framed, what its channel holds and what the listener is handing to it are together exactly the packets meant for it, in order. |
| ClientPackets.FramedIsStart | src/relay.rs:604-618 | In every run, what any task has framed is the start of what was meant for it: it passes over no packet. |
| ClientRuns.SenderExactly | src/relay.rs:604-630 | A task's send side is alive at any point of a run iff its link has come up and no step was its empty packet, a refused command, the loss of all senders, or its leaving. |
| ClientRuns.ReceiverExactly | src/relay.rs:597-642 | Its receive side is alive iff it has registered and no step was a failed send or the loss of its sender with an empty channel. |
| ClientRuns.PhaseExactly | src/relay.rs:562-651 | Where a task is at any point of a run follows from its own steps alone. |
| ClientRuns.LinkExactly | src/relay.rs:565-585 | And so does the link it has. |
| ClientRuns.EventsInOrder | src/relay.rs:499-527 | The events handled by the router and those that wait are those reported, in order. |
| ClientRuns.TargetExactly | src/relay.rs:502-509 | A server is known iff one was given at the start or an announce was handled. |
| ClientRuns.ArrivalsAreRouted | src/relay.rs:517-525 | The arrivals on a link are exactly the link data that the router has handled. |
| ClientRuns.ChunkGoesTo | src/relay.rs:517-525 | A chunk is dropped iff its link is not in `link_data`, the receive task has ended, or 256 chunks wait; otherwise it is the last in that task's channel. |
| ClientRuns.PacketGoesTo | src/relay.rs:535-562 | A packet goes to the task that its source leads to, starts one if there is none and a server is known, and is dropped otherwise. |
| ClientRuns.PacketsAreLogged | src/relay.rs:535-544 | The packets logged for a source are exactly those that the listener received from it, in order. |
| ClientRuns.NoneDropped | src/relay.rs:553-557 | With a server known from the start no packet is dropped for want of one. |
| ClientRuns.FramedOfSource | src/relay.rs:535-618 | In every run, what a task has framed are packets that the listener received from its source, in order. |
| ClientRuns.LinkCarriesAll | src/relay.rs:535-630 | With a server known from the start: when the only task of a source is alive with nothing waiting for it or in its hands, its link has carried the framing of all packets that the source has sent, in order. |
| ClientRuns.EntryExactly | src/relay.rs:592-649 | Where the packets of a source go at any point of a run: to the task that entered last, to none after a task of the source has left. |
| ClientRuns.LinkDataExactly | src/relay.rs:514-648 | Where the chunks of a link go: to the task that registered it, to none after its close was handled or the task was done. |
| ClientRuns.MapsLeadToWork | src/relay.rs:592-649 | In every run `udp_links` leads only to tasks that have a link and have not ended, and `link_data` only to tasks that relay. |
| ClientRuns.SenderCanFinish | src/relay.rs:604-630 | A live send task can always issue all that it has and empty its channel, unless an empty packet ends it. |
| ClientRuns.CanOpen | src/relay.rs:535-602 | From every state with a listening listener and a known server, a packet of a new source can get a link that carries its framing, and both map entries. |
| ClientRuns.CanSend | src/relay.rs:546-630 | A packet of a source with a live task can be issued whole after what the task has in hand. |
| ClientRuns.CanReceive | src/relay.rs:517-642 | A chunk on the link of a task can reach its receive task, and what it completes the source. |
| ClientRuns.ReceiverCanFinish | src/relay.rs:632-642 | A live receive task can always empty its channel. |
| ClientSafety.Downstream | src/relay.rs:632-642 | A task sends only to the source it was opened for, and only the reassembly of chunks of its own link, less the last datagram if its send failed; at most 256 chunks are queued. |
| ClientSafety.OutputIsLossy | src/relay.rs:517-525 | What a task writes back is a lossy image of what its link's peer framed, if the link brings some of the chunks sent on it, in order. |
| ClientSafety.BufferAtTask | src/framing.rs:65-74 | The same guard bound at every task of the client. |
| ClientListener.ListenerStuck | src/relay.rs:535-551 | The listener never receives a packet again, whatever the other tasks do, iff it waits for its own lock, or hands to a task whose channel is closed, or full with nobody to make room in it. |
| ClientListener.ListenerCanGetStuck | src/relay.rs:546-618 | A packet, an empty packet and any other packet of one source lead there. |
| ClientListener.StuckForEver | src/relay.rs:546-593 | From then on no task gets the write lock: no link comes up and no source leaves the map, for ever. |
| ClientSources.OneLinkPerSource | src/relay.rs:546-562 | In every run a source gets at most one link establishment iff each of its packets that arrives when it has a task finds the source in `udp_links`. |
| ClientListener.TwoLinksForOneSource | src/relay.rs:546-593 | A run in which that fails and two packets of one source open a link each. |
| ClientSources.EstablishHolds | src/relay.rs:592-593 | When its link is up the only task of a source holds the source's entry. |
| ClientSources.NeverReestablished | src/relay.rs:514-618 | From then on, on every path without an empty packet of the source and without a refused command of the task, the close of the link included: the entry stays, no other task is started for the source, and every later packet of it goes to that task. |
| ClientListener.NextPacketAfterClose | src/relay.rs:514-562 | A packet handled right after a close starts an establishment iff its source is not in `udp_links` any more and a server is known. |
| ClientListener.NotReestablished | src/relay.rs:514-551 | A run in which the next packet after a close goes to the old task. |
| ClientFlow.TaskInFlow | src/relay.rs:517-642 | The flow result for the client: in every run a task whose chunk channel is there from the first arrival on and holds chunks of at most 51 datagrams is refused nothing. |
| EndToEnd.ClientToServer | src/relay.rs:311-323 | Over both nodes and any link that brings some of the chunks, in order: the game server gets a lossy image of datagrams that all came, in this order, from the source the link was opened for. |
| EndToEnd.SourceToServer | src/relay.rs:535-630 | Over the same links, in terms of the packets sent: on every link the game server gets a lossy image of all packets of the one source that the link was opened for. |
| EndToEnd.ServerToClient | src/relay.rs:632-642 | Over the same links, with no link reported as established twice: the game client gets a lossy image of what the game server sent to the relay of its link, and it is sent to that client's source only. |
| EndToEnd.SmallPacketsIntact | src/framing.rs:18-23 | When all packets fit one chunk the game server gets a subsequence of that source's packets, none altered, whatever the network loses. |
| EndToEnd.GuardAtServer | src/framing.rs:65-74 | Over both nodes and any such link, the guard bound holds at the server's relay for what the client's task framed. |
| EndToEnd.GuardAtClient | src/framing.rs:65-74 | And at the client's task for what the game server sent to the relay. |
| EndToEnd.CloseLosesNothingQueued | src/relay.rs:311-367 | When a relay has stopped, in any run without a failed bind or send of its own, everything its channel ever took has been processed, since a bridge client never sends an empty chunk. |
| Lifecycle.StepKeeps | src/relay.rs:157-164 | Every step of caller and node threads keeps: only the current session's thread can hold a port, and not after its `stop` returned. |
| Lifecycle.NoBindClash | src/relay.rs:151-164 | For every sequence of starts, failed builds, stops and restarts and every interleaving, no bind finds its port held by an earlier session; what holds a port is said by the rows below. |
| Lifecycle.BindTakesPort | src/relay.rs:426-429 | A bind takes a port that no thread holds, and fails with nothing taken, and a clash noted, if one does. |
| Lifecycle.UpHolds | src/relay.rs:693-708 | In every state of every run a thread that has bound and still runs its node holds its port. |
| Lifecycle.DrivesUntilStopped | src/relay.rs:705-708 | A thread that has reported success drives its node until the node exits or the stop message is there. |
| Lifecycle.PortsExactly | src/relay.rs:682-694 | Every start has its thread, on the port that it was given. |
| Lifecycle.SessionHoldsPort | src/relay.rs:157-164 | So in every run a session that was not stopped, and whose node has not exited, holds the port of the latest start. |
| Lifecycle.HeldUntilDropped | src/relay.rs:710-721 | A run in which the port is still held after the thread has seen the stop message, up to the drop of the runtime, and not after it. |
| Lifecycle.ThreadExactly | src/relay.rs:682-723 | In every run each thread's phase, report, port and stop message are those that its own steps, and a `stop` on its session, have brought. |
| Lifecycle.CanStart | src/relay.rs:682-740 | Whenever there is no session, one can be started on any port, and holds it. |
| Lifecycle.CanRestart | src/relay.rs:151-164 | From every state of every run, failed starts and stops under way included, the caller can end what runs and have a session on any port again. |
| Lifecycle.StoppedHoldsNothing | src/relay.rs:710-722 | Once `stop` returned, and whenever there is no session, no port is held. |
| Lifecycle.SecondStopIsNoOp | src/relay.rs:157-164 | A second `stop` returns at once and changes nothing. |
| Lifecycle.StopReturns | src/relay.rs:705-722 | A caller waiting in `stop` can always go on: it can return, or its thread can step nearer to signalling, at most three times. |
| Lifecycle.ToGoNeverGrows | src/relay.rs:684-723 | No other step moves a thread away from signalling. |
| Upserts.UpsertAllExact | controller/src/controller.rs:131-137 | A list built by upserts has distinct keys in first-occurrence order, each with its last-occurring element. |
| Upserts.UpsertAllShrinks | controller/src/controller.rs:139-149 | It is shorter than its input exactly when that had a duplicate, and equal to it otherwise. |
| Upserts.UpsertAt | controller/src/controller.rs:381-385 | One upsert overwrites the first entry with that key, or appends. |
| ServerBrowser.Browser.constructor | src/relay.rs:421-424 | The list starts empty, the target as given on the command line. |
| ServerBrowser.Browser.RememberServer | src/relay.rs:743-756 | The browser list after an announce: the entry with that hash refreshed in place, name included, or a new one at the end; the target untouched. |
| ServerBrowser.Browser.AnnounceHeard | src/relay.rs:502-509 | The list as above, and the target set only if there was none. |
| ServerBrowser.HearAll | src/relay.rs:499-509 | Hearing announces one after another gives the list of upserts and the target `TargetAfter`. |
| ServerBrowser.DialsFirstListed | src/relay.rs:502-509 | Without an explicit hash the client dials the first server of its browser list, and that never changes. |
| Interfaces.FindEndpoint | controller/src/controller.rs:123-128 | The first entry whose kind, role, address and peer address are all those asked for, if there is one. |
| Interfaces.DedupInterfaces | controller/src/controller.rs:138-150 | Every descriptor has an entry with its four fields, no two entries have the same four, none is made up, and the list is that of recording the descriptors one by one from nothing; it reports true exactly when two descriptors had the same four fields, and changes nothing otherwise. |
| Interfaces.RecordInterface | controller/src/controller.rs:381-385 | The descriptor replaces the first entry with its kind, role, address and peer address, or is appended if there is none. |
| Interfaces.EndpointIsFields | controller/src/controller.rs:123-128 | Two descriptors are the same interface iff kind, role, address and peer address are all equal. |
| Interfaces.RolesAreKept | controller/src/controller.rs:1129-1137 | An interface for the server and one for the client, alike otherwise, are two, and no duplicate is reported. |
| Interfaces.ReattachedIsNew | controller/src/controller.rs:330-350 | What a resume records for a saved descriptor is what the add method of its kind records for the saved fields, with empty text for a missing address. |
| Interfaces.ShapedIsRecorded | controller/src/controller.rs:633-641 | The shape asked for below is exactly what the four add methods can record. |
| Interfaces.ResumeExact | controller/src/controller.rs:302-354 | For lists as the add methods write them, one resume gives the deduplicated list with a new id exactly where the attach succeeded. |
| Interfaces.ResumeStable | controller/src/controller.rs:330-354 | A resume keeps the deduplicated endpoints, order and IFAC fields whatever attaches iff every attachable entry is recorded as one that the list already has. |
| Interfaces.ResumeFixpoint | controller/src/controller.rs:302-354 | For a list as the add methods write it, or one that is stable in the sense above, any number of resumes with any failures changes only ids. |
| Interfaces.UnshapedIsDuplicated | controller/src/controller.rs:330-336 | A `tcp` descriptor with a peer address is duplicated by a resume. |
| Histories.ApplyKeeps | controller/src/controller.rs:285-297 | Every operation keeps: the file loads to the settings in memory, and a running session's arguments are the last and the saved ones with its flag set. |
| Histories.MomentRecorded | controller/src/controller.rs:285-297 | It holds after each write inside an operation too. |
| Histories.AlwaysRecorded | controller/src/controller.rs:70-73 | So it holds after every history of operations and of crashes between and inside operations, from any file. |
| Histories.ApplyKeepsInSync | controller/src/controller.rs:406-466 | No operation makes the flags differ from what runs; only a crash does. |
| Histories.CrashThenResume | controller/src/controller.rs:299-326 | After any history, a crash and a resume with successful starts brings back every running role with the same arguments, and runs exactly what the flags say. |
| Histories.CrashInsideThenResume | controller/src/controller.rs:299-466 | After a crash at any write inside any operation, and a resume with successful starts: what runs is what the flags say, and every session that the operation does not stop runs as before. |
| Histories.CrashInsideRestartServer | controller/src/controller.rs:427-434 | After a crash inside the restart of a running server it comes back iff the crash did not fall between stop and start and the start had not failed; its arguments are kept in any case. |
| Histories.CrashInsideRestartClient | controller/src/controller.rs:459-466 | The same for the client. |
| Histories.CrashInsideConnect | controller/src/controller.rs:936-953 | After a crash inside a connect the client comes back as before it if nothing was stopped yet, with the clicked hash if the start had succeeded, and else not; with the arguments kept in every case. |
| Histories.StoppedStaysStopped | controller/src/controller.rs:418-425 | A stopped role stays down through every history of other operations, resumes, and crashes between and inside them. |
| Histories.CleanResume | controller/src/controller.rs:365-369 | A resume that reports no error brought back every flagged session and attached every saved interface. |
| Starts.ServerRunsAsStarted | controller/src/controller.rs:406-416 | After every history, a start that succeeds runs the server with the arguments it is given, and through all later crashes, resumes and operations other than on the server each resume in which it comes up runs those; a refused or failed start changes nothing. |
| Starts.ClientRunsAsStarted | controller/src/controller.rs:438-448 | The same for the client. |
| Starts.RestartRunsSaved | controller/src/controller.rs:427-466 | After every history a restart that succeeds runs the saved arguments whether or not the role ran, one that fails leaves it down, and one without saved arguments changes nothing. |
| Starts.ConnectRunsClicked | controller/src/controller.rs:936-953 | After every history a connect runs the client with the saved arguments and the clicked hash, whether or not one ran, and later resumes bring that back; without saved arguments or with a bad hash nothing changes. |
| Starts.DsAsStarted | controller/src/controller.rs:866-879 | The arguments of a dedicated server that was started, and its flag, stay saved through all bridge operations, crashes and resumes, and a resume tries it; after a stop the arguments stay and no resume tries it. |
| Starts.ErrorsExact | controller/src/controller.rs:302-370 | What a resume reports is exactly, in order, what is flagged or saved and did not come up, reports of earlier resumes forgotten. |
| Starts.CleanExactly | controller/src/controller.rs:302-370 | It reports nothing iff every flagged session was down and came up, every saved interface is of a known kind, has a session of its role and attached, and the dedicated server came up if it was flagged. |
| Starts.RefusedChangesNothing | controller/src/controller.rs:828-919 | Whatever is refused or fails changes nothing, and live changes without saved arguments change no settings. |
| Starts.AddedIsListed | controller/src/controller.rs:580-643 | An interface that attached is in the saved list as it was given, with its id; entries with another kind, role or address are as they were; the list grows iff it had none with these four fields. Without a session of the role, or without attaching, nothing changes. |
| Histories.ResumeSessions | controller/src/controller.rs:308-326 | A resume starts exactly the flagged sessions that are down and can start, with the saved arguments, and touches nothing else of the sessions. |
| Histories.ResumeList | controller/src/controller.rs:328-354 | The interface part of a controller's resume is a resume of the list alone, with some pattern of attach results. |
| Histories.CrashKeepsInterfaces | controller/src/controller.rs:131-387 | For a file whose descriptors are shaped as the add methods write them, duplicates or not: after any history, a crash and a resume, whatever comes up, the saved interfaces are those of before without duplicates, in order and IFAC fields; only ids differ. A file without duplicates never gets any. |
| Histories.RemovedStaysRemoved | controller/src/controller.rs:816-847 | A removal takes an interface out of the list iff its entries were captured under the id removed; and then it is not in the list again, after any operations, crashes and resumes, until that endpoint is added again. |
| Histories.LiveChangesSurvive | controller/src/controller.rs:897-919 | A map change and a cheat setting made live are in the saved arguments, and nothing else of them changed, after any bridge operations, crashes and resumes. |
| Histories.RemoveAbsent | controller/src/controller.rs:836-843 | Filtering by an id leaves no entry of an endpoint iff all its entries were captured under that id, in any case of letters. |
| Controller.BridgeController.constructor | controller/src/controller.rs:257-274 | A new controller holds the loaded settings, or version 1 with nothing saved and no flag set, their arguments, and no session. |
| Controller.BridgeController.SaveSettings | controller/src/controller.rs:287-297 | The file then holds the settings; nothing else changes. |
| Controller.BridgeController.StartBridgeServer | controller/src/controller.rs:406-416 | The whole new state: refused with a session or a failed start; else session, last arguments, saved arguments, flag and file. |
| Controller.BridgeController.StopBridgeServer | controller/src/controller.rs:418-425 | No session, flag cleared and saved, arguments kept. |
| Controller.BridgeController.RestartBridgeServer | controller/src/controller.rs:427-434 | Nothing without last arguments; else a stop followed by a start with them. |
| Controller.BridgeController.StartBridgeClient | controller/src/controller.rs:438-448 | As for the server. |
| Controller.BridgeController.StopBridgeClient | controller/src/controller.rs:450-457 | As for the server. |
| Controller.BridgeController.RestartBridgeClient | controller/src/controller.rs:459-466 | As for the server. |
| Controller.BridgeController.ConnectTo | controller/src/controller.rs:936-953 | Nothing without last arguments or with a bad hash; else a stop and a start with the clicked hash. |
| Controller.BridgeController.Attach | controller/src/controller.rs:587-642 | Fails without a session of that role or without attaching; else the descriptor with its new id is recorded and saved. |
| Controller.BridgeController.AddTcp | controller/src/controller.rs:580-643 | Attaches and records a TCP descriptor: the address, no peer. |
| Controller.BridgeController.AddAuto | controller/src/controller.rs:650-687 | Neither address nor peer. |
| Controller.BridgeController.AddUdp | controller/src/controller.rs:695-738 | Local address and peer. |
| Controller.BridgeController.AddWebsocket | controller/src/controller.rs:746-814 | The address, no peer. |
| Controller.BridgeController.AddSaved | controller/src/controller.rs:330-350 | Re-attaching goes through the add method of the saved kind, with empty text for a missing address; an unknown kind is refused. |
| Controller.BridgeController.Remove | controller/src/controller.rs:828-847 | The entries captured under that id, in any case of letters, are gone and the others stay in order. |
| Controller.LetterCase | controller/src/controller.rs:836-843 | Ids are compared up to the case of the 26 ASCII letters, and nothing else. |
| Controller.BridgeController.StartDs | controller/src/controller.rs:866-872 | On success arguments and flag are saved. |
| Controller.BridgeController.StopDs | controller/src/controller.rs:874-879 | On success the flag is cleared and saved. |
| Controller.BridgeController.ChangeLevel | controller/src/controller.rs:901-908 | On success the saved map is the new one, if arguments were saved. |
| Controller.BridgeController.SetCheats | controller/src/controller.rs:912-919 | On success the saved cheat setting is the new one, if arguments were saved. |
| Controller.BridgeController.Repair | controller/src/controller.rs:303-307 | Old errors are forgotten and the list is deduplicated, and saved if it changed. |
| Controller.BridgeController.RestartSaved | controller/src/controller.rs:308-326 | Each flagged role with saved arguments is started; a failure is noted and does not stop the other. |
| Controller.BridgeController.ReattachSaved | controller/src/controller.rs:328-354 | Every saved descriptor is re-attached in turn; failures and unknown kinds are noted. |
| Controller.BridgeController.ResumeSaved | controller/src/controller.rs:302-370 | The whole resume in this order, the dedicated server last. |
| Ansi.StripAnsi | controller/src/steamcmd.rs:30-56 | The loop equals the automaton with the modes text, escape and control sequence, at every end of input. |
| Ansi.SkipSequence | controller/src/steamcmd.rs:38-51 | Skipping one sequence goes to where the automaton is back in text, or to the end. |
| Ansi.StripIdempotent | controller/src/steamcmd.rs:353-355 | The output has no escape character, and stripping again changes nothing. |
| Ansi.OutputIsSubsequence | controller/src/steamcmd.rs:34-55 | The output is the input with characters left out. |
| Ansi.StripUndecorates | controller/src/steamcmd.rs:28-30 | Inserting complete escape sequences anywhere in text without escapes and stripping gives the text back. |
| Ansi.EveryCompleteStringIsDecorated | controller/src/steamcmd.rs:37-52 | Every string that does not break off inside a sequence is such a decorated text, so the previous result covers all of them. |
| Specimens.UnfinishedDropped | controller/src/steamcmd.rs:37-52 | A sequence that the text breaks off in is dropped. |
| Specimens.LettersEndSequences | controller/src/steamcmd.rs:43 | A control sequence ends at one of the 52 ASCII letters, spelled out. |
| Progress.CleanRoundTrip | controller/src/steamcmd.rs:72-117 | For any state code, verb, decimal percent and counts, a printed line parses to them, the percent clamped to 0..100; it is refused exactly when the percent is not finite as a double or a count does not fit 64 bits. |
| Progress.ProgressRoundTrip | controller/src/steamcmd.rs:72-117 | The same with any complete escape sequences inserted anywhere in the line. |
| Progress.CountsRequired | controller/src/steamcmd.rs:85-95 | A line with any code, verb and percent and then any text that does not go on with a number is parsed iff the percent is finite and the text has two counts in parentheses. |
| Progress.CountlessRefused | controller/src/steamcmd.rs:85-95 | The line "Update state (0x61) downloading, progress: 92.78" is refused. |
| Progress.StrippedFirst | controller/src/steamcmd.rs:353-355 | Stripping a line before parsing it makes no difference. |
| Specimens.NoProgressWord | controller/src/steamcmd.rs:74 | A line in which "progress:" does not occur is refused. |
| Specimens.StateOptional | controller/src/steamcmd.rs:97-110 | A line without "Update state" is parsed, without a state. |
| Specimens.PrefixIgnored | controller/src/steamcmd.rs:97-101 | What stands before "Update state" does not matter for the state. |
| Progress.InsideFound | controller/src/steamcmd.rs:87-90 | The counts are looked for between the first parenthesis and the next closing one, whatever stands before and after. |
| Specimens.CountsAroundSlash | controller/src/steamcmd.rs:91-93 | They are the numbers on either side of the first slash, and both must be there. |
| Specimens.CommasExact | controller/src/steamcmd.rs:107 | All commas after the verb go, and nothing else. |
| Specimens.TrimExact | controller/src/steamcmd.rs:75-93 | Trimming removes exactly the white space at both ends. |
| Specimens.WhiteSpace | controller/src/steamcmd.rs:75-93 | White space is the 25 characters of Unicode's White_Space, spelled out. |
| Specimens.NumberCharacters | controller/src/steamcmd.rs:76-78 | The percent is read from the characters 0123456789.- |
| Specimens.CountsUpTo | controller/src/steamcmd.rs:92-93 | A count is accepted iff it is below 18446744073709551616, with or without a plus sign. |
| Specimens.DotForms | controller/src/steamcmd.rs:79 | Digits are needed on one side of the dot only, and a second dot is refused. |
| Specimens.FiniteBound | controller/src/steamcmd.rs:80-82 | A percent is finite iff its magnitude is below 9007199254740991 times 2 to the 971 plus 2 to the 970. |
| Specimens.PlainLine | controller/src/steamcmd.rs:592-596 | The literal line of the repository's test gives 50 percent, 100 of 200 bytes and "downloading". |
| Specimens.ColouredLine | controller/src/steamcmd.rs:592-596 | So it does in escape sequences. |
| A2s.Cursor.ReadU8 | controller/src/a2s.rs:236-240 | One byte and the next position, or nothing at the end. |
| A2s.Cursor.ReadI16Le | controller/src/a2s.rs:242-246 | Two bytes as little-endian two's complement, or nothing. |
| A2s.Cursor.ReadI32Le | controller/src/a2s.rs:248-252 | Four bytes as little-endian two's complement, or nothing. |
| A2s.Cursor.ReadCString | controller/src/a2s.rs:261-271 | The bytes up to the next zero, which is consumed, or nothing if there is none. |
| A2s.Cursor.ReadInfoBody | controller/src/a2s.rs:103-132 | The 'I' branch reads the layout `InfoBody`. |
| A2s.Cursor.ReadLegacyBody | controller/src/a2s.rs:135-174 | The 'm' branch reads the layout `LegacyBody`, with the mod block only if the mod byte is set. |
| A2s.Cursor.ReadPlayer | controller/src/a2s.rs:209-213 | One player entry reads the layout `Player`. |
| A2s.ServerTypeTellsApart | controller/src/a2s.rs:218-225 | No two server type bytes are shown alike. |
| A2s.EnvironmentTellsApart | controller/src/a2s.rs:227-234 | Environment bytes are shown alike iff they are the same or both stand for a Mac. |
| A2sFormats.ServerTypeTable | controller/src/a2s.rs:218-225 | Bytes 0x64, 0x6C and 0x70 and no others are shown as dedicated, listen and proxy; every other is shown as its number. |
| A2sFormats.EnvironmentTable | controller/src/a2s.rs:227-234 | Byte 0x6C is shown as linux, 0x77 as windows, 0x6D and 0x6F as mac, and no others; every other is shown as its number. |
| A2sFormats.HexTextReads | controller/src/a2s.rs:223 | That number reads back from its text: 0x and the shortest lower-case hexadecimal numeral. |
| A2sFormats.OtherRepliesRefused | controller/src/a2s.rs:95-201 | Only replies that begin with four bytes 0xFF and 0x49 or 0x6D, or 0x44 for players, are accepted. |
| A2s.ParseInfo | controller/src/a2s.rs:95-177 | The result for every byte sequence, refusals included. |
| A2s.ParsePlayers | controller/src/a2s.rs:201-216 | The result for every byte sequence and player count. |
| A2s.InfoPrefixLaw | controller/src/a2s.rs:95-177 | Every accepted info reply, of either kind, has a length q: cut anywhere it is accepted with the same result iff q bytes are left, and appended bytes change nothing. |
| A2s.PlayersPrefixLaw | controller/src/a2s.rs:201-216 | The same for player replies. |
| A2s.ScoreRoundTrip | controller/src/a2s.rs:248-252 | Every 32-bit score survives its little-endian encoding. |
| A2s.InfoRoundTrip | controller/src/a2s.rs:103-132 | Parsing the encoding of any 'I' record with NUL-free strings returns its fields and consumes all of it. |
| A2s.PlayersRoundTrip | controller/src/a2s.rs:201-216 | Parsing the encoding of any list of up to 255 players with NUL-free names returns the list and consumes all of it. |
| A2sFormats.LegacyRoundTrip | controller/src/a2s.rs:135-174 | Parsing the encoding of any 'm' record, with or without a mod block, returns its fields and consumes all of it. |
| A2sFormats.OnePlayer | controller/src/a2s.rs:201-216 | A literal reply with one player of score -2. |
| A2sFormats.OneInfo | controller/src/a2s.rs:103-132 | A literal 'I' reply of a dedicated server on Linux. |
| A2s.InfoEncodingPrefixFree | controller/src/a2s.rs:95-132 | Every strict prefix of a valid 'I' encoding is refused, and bytes after it change nothing. |
| A2s.PlayersEncodingPrefixFree | controller/src/a2s.rs:201-216 | The same for player encodings. |
| Mapcycle.MapcycleFile.FixDefault | controller/src/ds.rs:683-699 | Rewritten iff the file could be read, has a portal line and could be written, and then holds `Repaired`; untouched without portal line. |
| Mapcycle.LinesRoundTrip | controller/src/ds.rs:692-697 | Lines written by join and read back are the same, each less one carriage return at its end. |
| Specimens.UnendedLine | controller/src/ds.rs:692 | A last line that is not ended keeps all its characters, a carriage return too. |
| Mapcycle.RepairedLines | controller/src/ds.rs:692-698 | The lines of a rewritten file, in order; an empty list reads back as one empty line. |
| Mapcycle.OthersKept | controller/src/ds.rs:692 | Filtering keeps every other line as often as it occurs and no portal line. |
| Mapcycle.NoPortalLeft | controller/src/ds.rs:677-680 | After a repair no line is a portal entry. |
| Mapcycle.RepairTwice | controller/src/ds.rs:679-682 | A second repair changes nothing. |
| Mapcycle.RepairPermutes | controller/src/ds.rs:692-698 | The lines of a rewritten file are a permutation of the other lines, up to one carriage return each and the empty line of an empty list. |
| Mapcycle.FirstMapLeads | controller/src/ds.rs:693-695 | If svencoop1 is among them, it is the first line. |
| Mapcycle.SwapIsMove | controller/src/ds.rs:693-695 | The swap moves svencoop1 to the front and keeps the order of the rest iff all lines before it are equal. |
| Mapcycle.SwapIsNotMove | controller/src/ds.rs:693-695 | A file for which they differ: two maps, svencoop1 and a portal line. |
| Specimens.StockRepaired | controller/src/ds.rs:820-833 | The literal file of the repository's test becomes the file that the test expects. |
| Specimens.PortalExact | controller/src/ds.rs:688 | A line is a portal entry iff it is sp_campaign_portal, dashed or not, up to white space at its ends. |

## Left out

- The Reticulum engine: routing, path requests, encryption and IFAC keys. A link is assumed to bring some of the chunks sent on it, in order and each at most once; `establish_link` is assumed to return ids it has not returned before, and for EndToEnd.ServerToClient the server's engine to report no link as established twice. `issue` may refuse at any time, as it does when the node has stopped.
- Tokio, sockets and threads: each task moves in atomic steps between its waits, and dropping a runtime releases its sockets. A `send` to a UDP socket may fail at any time; what the network does with a datagram is not modelled.
- Ports held by other processes, and a caller that gives up while it waits for a start or a stop.
- Announces, `identify` and the connected-clients list; of announces only the browser list and the client's target.
- ServerFlow.RelayInFlow: asks that the channel is there from the first arrival to the last; a channel that does not exist yet or any more refuses chunks too (src/relay.rs:373-375). ClientFlow.TaskInFlow likewise.
- ServerEnds.DrainsBeforeStopping: says nothing of runs with a failed bind or send of that relay; ServerEnds.StoppedReader says exactly what those leave behind.
- Controller.BridgeController.SaveSettings: a failed write of the settings file, which the program only logs, is assumed not to happen; a file that was written reads back the same, as JSON is assumed to. A failed write of the map cycle file leaves anything behind.
- Interface attaching itself (parsing of addresses, TCP, UDP, WebSocket and auto interfaces): an attach succeeds, with or without an id seen, or fails.
- The texts of errors and logs. What a resume reports is the list of what failed.
- `kind` and `role` strings are enumerations with a case for any other string; hashes and addresses in the relays are numbers, since only equality matters.
- Progress.CleanRoundTrip: the percent is exact where the program rounds to a double; the threshold above which rounding is infinite is modelled.
- Strings of A2S replies are the bytes received, before the lossy UTF-8 decoding; the player's time is its four bytes. The sending of queries and challenges is not modelled.
- The 'm' reply is decoded, and for A2sFormats.LegacyRoundTrip encoded, as the program lays it out, with a version byte (controller/src/a2s.rs:141) that the published layout does not have.
- Text is a sequence of characters; `fmt_bytes` and the progress caption are left out, being floating-point formatting.
- `DsManager`, downloads, archives, game launch, the web and desktop shells and the scripts.
