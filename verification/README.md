# Cloudbus, verified

A model in Dafny of Cloudbus, a session-layer multiplexer, with proofs about all its runs.

A *controller* cuts the bytes of each client into frames stamped with a UUID and sends them over shared
transports to *segments*.  A segment puts frames together again and hands their payload to one backend socket
per session; replies go back the same way.  `dafny verify dfyconfig.toml` checks everything.

## How the model is built

- **Frames and buffers.**  `Frames` is the wire format and its batch parser.  `Reassembly` (Xmsg.dfy) is the
  incremental reader, `XmsgBuffer` its growable buffer and read loops.
- **The two processes.**  `Connections` is the connection table and its state machine; `Controller` and
  `Segment` are the handlers as functions on a value; `ControllerConnector` and `SegmentConnector` are the same
  handlers as classes with the loops of the source, proved to compute those functions.
- **The system.**  `System` puts a controller, the segments and the byte channels between them together as
  23 kinds of steps.  Reads and flushes move any number of bytes, steps interleave in any order, and a step
  that is not enabled changes nothing.  All segments are one table whose connections carry their transport.
- **The invariant.**  `Flow` is one connection seen on its own, with what is true of it at every moment;
  `Invariant`, `Streams`, `ControllerSteps`, `ControllerReplies` and `SegmentSteps` show that every step keeps it
  for every connection at once.
- **What follows.**  `Theorems` (end-to-end delivery, conservation, framing, lifecycle), `Latching` (half-duplex
  sessions; `LatchRuns` has two concrete ones), `Quiescence` (no endless exchange of aborts), `FanOut` and `Bounds`
  (backpressure), `Effects` (what each failure and each refused frame does, exactly), `SessionIds`.
- **Around it.**  `RoundRobin`, `TimerQueue`, `Search`, `SortedIndex`, `Metrics`, `Triggers`, `SocketBuffers`, `Config`.

Streams are numbers.  A weak pointer that no longer locks is membership in a set of dead streams.  The clock,
the kernel's answers, the selected transports and fresh UUIDs are parameters of the steps; a new session's UUID
is assumed to have node bytes that no earlier session has, and its transports are assumed alive and different.

## Where the code differs from its documentation

The documentation promises (README.md, lines 189-198) that any data reply in half-duplex mode turns the session
into a one-to-one session.  The code latches only if the replying connection is still HALF_OPEN, which a second
chunk from the client ends, and it does not abort siblings that are HALF_CLOSED.  `Latching.SecondChunkDefeatsLatch`
and `Latching.SilentEndDefeatsLatch` are two runs of the system in which the promise fails; `Latching.LatchIsExact`
says exactly when it holds.

The timer queue loses its order when a stream is given a time between two queued times
(`TimerQueue.MovedBetweenIsLate`); `TimerQueue.AddIsOrderedIff` says exactly when it keeps it.  The only caller
arms timers with times that do not go back, for which `TimerQueue.RunsRefineTable` holds.

The configuration parser steps before the beginning of a line that has a value but no key, which has no defined
meaning, if a section is open.  `Config.NoKeyNoReading` is such a text, and `Config.UndefinedIffFaulty` says exactly
which texts are.

## Model

| member | source | states |
|---|---|---|
| Theorems.NextKeeps | src/cloudbus/controller/controller_connector.cpp:130-188 | Each of the 23 steps of the system (reads, flushes, routes, state handlers, failures on either side) keeps the invariant of all reachable states, and takes no connection back: states only advance, byte streams only grow. |
| Theorems.Reachable | src/cloudbus/controller/controller_connector.cpp:130-188 | The invariant holds after every finite run from the empty system, in either mode, whatever the interleaving. |
| Theorems.ClientToBackend | src/cloudbus/controller/controller_connector.cpp:210-250 | For every run, every interleaving of sessions on shared transports and every chunking: a backend stream belongs to exactly one connection, and what was written to it is a prefix of what was read from that connection's client since the session opened. |
| Theorems.ClientToBackendConserved | src/cloudbus/segment/segment_connector.cpp:186-244 | While both ends keep the connection open nothing is lost: bytes delivered to the backend, then bytes in flight under the UUID, then the chunk in the marshaller are exactly the bytes the client sent. |
| Theorems.BackendToClient | src/cloudbus/segment/segment_connector.cpp:245-270 | For every run, what a client was given by a connection is a prefix of what was read from that connection's backend. |
| Theorems.BackendToClientConserved | src/cloudbus/controller/controller_connector.cpp:251-322 | While the controller listens and the segment keeps its entry, bytes given to the client, then bytes in flight, then the segment's chunk are exactly what the backend sent; the rule that ignores frames on a HALF_CLOSED connection drops none of them. |
| Theorems.ClientStreamIsMerge | src/cloudbus/controller/controller_connector.cpp:671-682 | Every piece of a client's stream came over a connection that was made for that client: no leakage between sessions. |
| Theorems.NothingFollowsStop | src/cloudbus/segment/segment_connector.cpp:495-514 | In every reachable state, behind a segment's STOP no frame of that UUID carries payload, and the backend is at end of file with nothing pending. |
| Theorems.WiresHoldFrames | src/cloudbus/controller/controller_connector.cpp:264-267 | At every moment of every run both directions of every transport hold complete frames and nothing else, whichever handler wrote them; no 16-bit length wraps, and every frame is for a connection made on that transport. |
| Theorems.StatesOnlyAdvance | src/cloudbus/controller/controller_connector.cpp:72-94 | Over every stretch of every run a connection's state never goes back, a forgotten connection never returns, and one that is CLOSED or forgotten frames and delivers no payload any more. |
| Theorems.ConnectionsAreLawful | src/cloudbus/controller/controller_connector.cpp:72-94 | In every reachable state the timestamps of a connection up to its state are in order and not in the future, and its completion is recorded once if it is CLOSED and not at all otherwise. |
| Theorems.StateHandlerIsLast | src/cloudbus/controller/controller_connector.cpp:567-577 | The state handler removes a client exactly when all its connections are CLOSED, and sends nothing in doing so. |
| Flow.FanOutKeeps | src/cloudbus/controller/controller_connector.cpp:222-237 | Framing the client's chunk to a connection keeps the account of its bytes, including one whose first frame has not reached the segment. |
| Flow.AcceptDownKeeps | src/cloudbus/segment/segment_connector.cpp:195-232 | Moving the first frame in flight to the backend keeps the account of the connection's bytes. |
| Flow.OpenKeeps | src/cloudbus/segment/segment_connector.cpp:298-344 | A session is opened at most once, and making the first frame's payload the backend's first bytes keeps the account. |
| Flow.SegSendKeeps | src/cloudbus/segment/segment_connector.cpp:495-514 | Framing a backend's chunk, or its end of file, keeps the account, and nothing with payload follows a STOP. |
| Flow.AcceptUpKeeps | src/cloudbus/controller/controller_connector.cpp:269-288 | Moving the first reply in flight to the client keeps the account. |
| Flow.RejectUpKeeps | src/cloudbus/controller/controller_connector.cpp:273-282 | Dropping a reply because its connection is over or has seen STOP keeps the account: in the second case it is empty. |
| ControllerSteps.NorthRouteKeeps | src/cloudbus/controller/controller_connector.cpp:210-250 | The whole client-to-bus route, with or without opening a session, keeps the invariant. |
| ControllerSteps.ConnectNewFlow | src/cloudbus/controller/controller_connector.cpp:411-500 | A connection that `_north_connect` makes starts sound, also when its first frame is refused for want of room. |
| ControllerReplies.CtrlSouthKeeps | src/cloudbus/controller/controller_connector.cpp:251-322 | The whole bus-to-client route, with its rejections, aborts and latch, keeps the invariant. |
| ControllerReplies.PassedFlow | src/cloudbus/controller/controller_connector.cpp:269-288 | A reply that is passed on is the first in flight for its connection: its payload goes to the client, the state advances, and no other connection is touched. |
| Effects.TransportLost | src/cloudbus/controller/controller_connector.cpp:641-670 | A lost transport closes its connections, forgets those whose client is gone, sends nothing, and touches no other connection. |
| Effects.ClientLost | src/cloudbus/controller/controller_connector.cpp:501-528 | A lost client's connections are forgotten, exactly those that still served it are told with one ABORT, and no other connection is touched. |
| Effects.ReplyRefused | src/cloudbus/controller/controller_connector.cpp:312-319 | A reply that is rejected is taken off and answered with exactly one ABORT unless it is one itself, one for a lost client is only taken off, and no other connection is touched. |
| SegmentSteps.SegNorthKeeps | src/cloudbus/segment/segment_connector.cpp:186-244 | The segment's whole bus-to-backend route keeps the invariant. |
| SegmentSteps.SegSouthKeeps | src/cloudbus/segment/segment_connector.cpp:245-270 | The segment's whole backend-to-bus route, with the teardown it may ask for, keeps the invariant. |
| SegmentSteps.PassedFlow | src/cloudbus/segment/segment_connector.cpp:195-232 | A frame that is passed on is the first in flight for its connection: its payload goes to the backend, the state advances, and no other connection is touched. |
| SegmentSteps.OpenedFlow | src/cloudbus/segment/segment_connector.cpp:298-344 | A frame that opens a session makes its connection, HALF_CLOSED if it is a STOP, with its payload as all the backend was given. |
| Effects.BackendHeard | src/cloudbus/segment/segment_connector.cpp:245-270 | A backend's chunk or end of file becomes exactly one frame on its own connection, whose state advances; the entry is forgotten when that closes it, and no other connection is touched. |
| Effects.OrderRefused | src/cloudbus/segment/segment_connector.cpp:233-241 | A frame for no open connection that opens none is taken off and answered with exactly one ABORT unless it is one itself. |
| Effects.BackendLost | src/cloudbus/segment/segment_connector.cpp:462-494 | A lost backend's connection is forgotten, and the controller is told with one ABORT if and only if it was open and its transport lives. |
| Effects.LinkLost | src/cloudbus/segment/segment_connector.cpp:345-367 | A transport lost at the segment closes its connections and sends nothing. |
| Latching.LatchIsExact | README.md:189-198 | After a data reply the session is one-to-one if and only if every other connection of it was over already, or the replying one was HALF_OPEN in half-duplex mode and no other one was HALF_CLOSED: the exact condition of the documented promise. |
| Latching.LatchStep | src/cloudbus/controller/controller_connector.cpp:289-308 | A reply that meets the guard sends every sibling below HALF_CLOSED exactly one ABORT and closes it, passes the payload on, and leaves every other session as it was. |
| Latching.NoLatchStep | src/cloudbus/controller/controller_connector.cpp:289-293 | A data reply that does not meet the guard leaves every other connection as it was. |
| Latching.LatchedForGood | src/cloudbus/controller/controller_connector.cpp:226-232 | Once a session is latched it stays so: for the rest of every run no payload is framed to a sibling or passed on from one, and no connection joins the session. |
| Latching.LatchExclusivity | src/cloudbus/controller/controller_connector.cpp:273-311 | In every half-duplex run, a first data reply to a session whose connections are all HALF_OPEN closes every sibling, and however the run goes on payload under that UUID is exchanged with the winner only. |
| Latching.SecondChunkDefeatsLatch | src/cloudbus/controller/controller_connector.cpp:232 | A run of the whole system in which the documented promise fails: two backends, and a client that sends twice before the first answer; the answer is passed on and the session is not one-to-one. |
| Latching.SilentEndDefeatsLatch | src/cloudbus/controller/controller_connector.cpp:294-296 | A second run in which it fails: the client sends once, the other backend ends first without a word, and its connection stays HALF_CLOSED although the answer meets the guard. |
| Quiescence.SegReceipt | src/cloudbus/segment/segment_connector.cpp:195-243 | A frame handled by the segment strictly lowers the measure: twice the frames in flight that are not ABORTs, plus the ABORTs, plus one for each that opens a session, plus the controller's connections that are not CLOSED, plus the segment's entries. |
| Quiescence.CtrlReceipt | src/cloudbus/controller/controller_connector.cpp:258-321 | A frame handled by the controller strictly lowers the same measure, latch included. |
| Quiescence.ControllerFailureCost | src/cloudbus/controller/controller_connector.cpp:501-528 | Losing clients and transports at the controller, and its state handler, never raise the measure: each ABORT they send is paid for by a connection. |
| Quiescence.SegmentFailureCost | src/cloudbus/segment/segment_connector.cpp:462-494 | The same for the segment: each ABORT is paid for by an entry. |
| Quiescence.ExchangeTerminates | src/cloudbus/controller/controller_connector.cpp:314-318 | In a run of any steps but reading from clients and backends and routing what they said, however long, however interleaved and whatever fails in it, the two sides handle no more frames than the measure of the state it starts from. |
| FanOut.AllOrNothing | src/cloudbus/controller/controller_connector.cpp:220-237 | A chunk or end of file of a client with a session is refused, and nothing changes, or every connection that still serves the client gets exactly one frame with exactly that chunk and no other connection gets any. |
| FanOut.HeldBackUntilSent | src/cloudbus/controller/controller_marshaller.cpp:99-103 | However long the run, until a route of the client succeeds a chunk that was refused stays byte for byte as it is and nothing more is read from the client. |
| Bounds.OneFramePerTransport | src/cloudbus/controller/controller_connector.cpp:224-237 | A fan-out puts at most one frame on any one transport. |
| Bounds.PendingIsBounded | src/cloudbus/controller/controller_connector.cpp:189-250 | In every reachable state a route from a client, whether or not it opens a session, leaves each transport as it was or with at most 256 MiB pending. |
| Bounds.FanOutIsBounded | src/cloudbus/controller/controller_connector.cpp:189-237 | A fan-out keeps that bound. |
| Bounds.ReportsAreBounded | src/cloudbus/segment/segment_connector.cpp:495-514 | In every reachable state a route from a backend leaves each transport of the segment as it was or with at most 256 MiB pending. |
| Bounds.UnsentIsBounded | src/cloudbus/controller/controller_connector.cpp:671-682 | In every reachable state less than 256 MiB wait to be sent to any client and to any backend. |
| Bounds.ConnectIsBounded | src/cloudbus/controller/controller_connector.cpp:482-492 | Opening a session keeps that bound, from any state of the controller. |
| Frames.EncodeIsFaithful | src/messages/messages.hpp:41-68 | A frame whose payload fits reads back as it was, and its length field is its length. |
| Frames.LengthFieldIsExact | src/cloudbus/controller/controller_connector.cpp:215-218 | The 16-bit length equals the true length if and only if the payload is at most 65511 bytes. |
| Frames.ParseEncodeAll | src/messages/messages.hpp:62-68 | Parsing undoes encoding, for every sequence of sendable frames and whatever follows them. |
| Frames.AppendFrames | src/cloudbus/controller/controller_connector.cpp:228-229 | Appending frames to a stream of complete frames appends them to its parse. |
| Connections.StateUpdateIsLawful | src/cloudbus/controller/controller_connector.cpp:72-94 | The switch with its fall-throughs advances the state as the table of transitions says, keeps timestamps in order, and records a completion exactly on reaching CLOSED. |
| Connections.MakeConnection | src/connector/connectors.hpp:32-49 | The loop of `make` stamps every state up to the first one and no other. |
| Controller.SessionStateMeaning | src/cloudbus/controller/controller_connector.cpp:553-566 | What `session_state` computes: CLOSED if and only if all connections are, OPEN if and only if one is, otherwise the least of their states. |
| Reassembly.ReassemblyRefinesParse | src/cloudbus/controller/controller_marshaller.cpp:37-58 | For every stream of frames and every way of cutting its arrival into reads and routing attempts, reads of nothing and retries included, frames routed so far followed by the parse of the rest are the parse of the whole. |
| Reassembly.ReassemblyNeverSticks | src/cloudbus/segment/segment_marshaller.cpp:37-58 | As long as bytes are outstanding, the frame in the buffer is complete or more bytes are both wanted and there. |
| Reassembly.ReassemblyIsComplete | src/cloudbus/segment/segment_marshaller.cpp:105-141 | Offered all its bytes and routed after each read, a stream yields all its frames, in order. |
| XmsgBuffer.XmsgBuf.XmsgRead | src/cloudbus/segment/segment_marshaller.cpp:37-58 | `xmsg_read` takes from the socket exactly a prefix that completes at most the current frame, as much as the abstract reader would, whatever the socket yields. |
| XmsgBuffer.XmsgBuf.Overflow | src/formats/xmsg.cpp:89-102 | The buffer refuses to run past the end of its frame and grows by 4 KiB otherwise, keeping what it holds. |
| XmsgBuffer.XmsgBuf.Write | src/formats/xmsg.cpp:89-102 | A write appends all its bytes, or stops exactly at the end of the frame. |
| XmsgBuffer.XmsgBuf.SeekP | src/formats/xmsg.cpp:121-136 | Moving the put position is refused past the end, and never leaves the get position ahead of it. |
| XmsgBuffer.XmsgBuf.SeekG | src/formats/xmsg.cpp:121-136 | Moving the get position is refused past the put position. |
| XmsgBuffer.XmsgBuf.ShowManyC | src/formats/xmsg.cpp:76-85 | End of file is reported exactly when the whole frame has been read. |
| XmsgBuffer.StreamCopy | src/cloudbus/controller/controller_marshaller.cpp:59-68 | A client is read in order, nothing lost, and never more than one frame holds. |
| ControllerConnector.Connector.RouteNorth | src/cloudbus/controller/controller_connector.cpp:210-250 | The loop form of the client-to-bus route does, after the flushes it made, what `Controller.NorthRoute` says. |
| ControllerConnector.Connector.WritePrepare | src/cloudbus/controller/controller_connector.cpp:189-209 | Finds a stream without room if and only if there is one after flushing the full ones; flushing only takes bytes from the front. |
| ControllerConnector.Connector.FanOutLoop | src/cloudbus/controller/controller_connector.cpp:222-237 | The loop over the table equals the fan-out as a function, and reports whether the client had any live connection. |
| ControllerConnector.Connector.NorthConnect | src/cloudbus/controller/controller_connector.cpp:411-500 | Makes the connections and the first frames of a session as `Controller.Connect` says, refusals included. |
| ControllerConnector.Connector.MakeConnections | src/cloudbus/controller/controller_connector.cpp:459-474 | The loop that counts the clock sequence gives connection i the UUID counted i + 1 times in full-duplex mode, and the same UUID otherwise. |
| ControllerConnector.Connector.FirstFrames | src/cloudbus/controller/controller_connector.cpp:482-492 | Every new connection gets one INIT frame with the chunk. |
| ControllerConnector.Connector.RouteSouth | src/cloudbus/controller/controller_connector.cpp:251-322 | The loop form of the bus-to-client route does what `Controller.SouthRoute` says, and keeps the frame exactly if the client has no room. |
| ControllerConnector.Connector.LatchLoop | src/cloudbus/controller/controller_connector.cpp:294-308 | The nested loop aborts exactly the siblings the latch is to abort. |
| ControllerConnector.Connector.NorthErr | src/cloudbus/controller/controller_connector.cpp:501-528 | The loop form of losing a client. |
| ControllerConnector.Connector.SouthErr | src/cloudbus/controller/controller_connector.cpp:641-670 | The loop form of losing a transport. |
| ControllerConnector.Connector.StateOfSession | src/cloudbus/controller/controller_connector.cpp:553-566 | The loop over the table computes the session state. |
| Loops.StreamWrite | src/cloudbus/controller/controller_connector.cpp:102-114 | Header and payload, copied in pieces of at most 256 bytes, are the frame's encoding. |
| SegmentConnector.Connector.RouteNorth | src/cloudbus/segment/segment_connector.cpp:186-244 | The loop form of the bus-to-backend route does what `Segment.NorthRoute` says, and keeps the frame exactly if the backend has no room. |
| SegmentConnector.Connector.RouteSouth | src/cloudbus/segment/segment_connector.cpp:245-270 | The loop form of the backend-to-bus route, with the teardown it asks for. |
| SegmentConnector.Connector.SouthWrite | src/cloudbus/segment/segment_connector.cpp:495-514 | A frame is written if and only if its transport has room after a flush. |
| SegmentConnector.Connector.SouthErr | src/cloudbus/segment/segment_connector.cpp:462-494 | The loop form of losing a backend: its connections are aborted and forgotten. |
| SegmentConnector.Connector.ConnectFail | src/cloudbus/segment/segment_connector.cpp:271-297 | The loop form of a backend that could not be connected. |
| SegmentConnector.Connector.NorthErr | src/cloudbus/segment/segment_connector.cpp:345-367 | The loop form of losing a transport at the segment. |
| SessionIds.IdsDifferIff | src/cloudbus/controller/controller_connector.cpp:460-464 | For every starting clock sequence, the UUIDs of n connections of a full-duplex session are pairwise different if and only if n is at most 64, despite the wrap at 63. |
| SessionIds.IdsShareNodeAndVariant | src/messages/messages.cpp:56-63 | Counting leaves node bytes, variant bits and all other bytes as they were. |
| SessionIds.NewConnectionsDiffer | src/connector/connectors.cpp:82-83 | With as many backends as the constructor admits, the entries made for a client differ in UUID and share its node bytes. |
| RoundRobin.SharesAreExact | src/interfaces/interfaces.cpp:255-271 | Any k times the total weight many calls of `next`, from cleared counters or at the start of a round, pick every address of the lowest priority value exactly k times its weight, and no other at all. |
| RoundRobin.RunIsBalanced | src/interfaces/interfaces.cpp:255-271 | At every moment of every run the counters in play are all min(max, p) or min(max, p + 1) for one p. |
| RoundRobin.PickIsBalanced | src/interfaces/interfaces.cpp:259-267 | A pick continues the current pass over the addresses or starts the next one. |
| RoundRobin.Interface.Next | src/interfaces/interfaces.cpp:255-271 | Terminates; picks the first address with turns left going round from where the last call stopped, also when a new round begins; clears the counters only when every address in play is used up; and yields none only if there is none. |
| RoundRobin.Interface.NextMany | src/interfaces/interfaces.cpp:255-271 | Any number of calls, one after another, make a run in the sense of the two theorems above. |
| RoundRobin.Interface.Rounds | src/interfaces/interfaces.cpp:255-271 | k rounds of calls from the start of one return every address of the lowest priority value exactly k times its weight, and no other. |
| RoundRobin.Interface.FindWeights | src/interfaces/interfaces.cpp:165-191 | Finds the lowest priority value and the weight of the addresses that have it, and gives each one turn if they have none. |
| RoundRobin.Interface.ClearCounters | src/interfaces/interfaces.cpp:250-254 | Sets every counter to zero and changes nothing else. |
| RoundRobin.Interface.ExpireAddresses | src/interfaces/interfaces.cpp:295-315 | Only addresses that expired before the given time or have no weight go; the others keep order and counters, and the weights are found anew. |
| TimerQueue.RunsRefineTable | src/connector/connector_timerqueue.cpp:40-95 | Over every run whose times do not go back: the queue is sorted with one entry a stream, holds exactly the table of timers, and every sweep takes exactly the timers that are due, in order of expiry. |
| TimerQueue.AddIsOrderedIff | src/connector/connector_timerqueue.cpp:40-68 | A new time keeps a sorted queue sorted with one entry a stream if and only if nothing due later precedes the stream's entry, and the entry is brought forward or nothing due later follows it. |
| TimerQueue.AddUpdatesTable | src/connector/connector_timerqueue.cpp:48-67 | Where it keeps the order, arming is a plain update of the table, in which a stream that is queued keeps its first callback. |
| TimerQueue.AddAtEnd | src/connector/connector_timerqueue.cpp:59-67 | A time no earlier than all others moves the stream's entry to the end and leaves the others as they are. |
| TimerQueue.MovedBetweenIsLate | src/connector/connector_timerqueue.cpp:50-53 | A concrete queue in which a time between two others puts the entry behind the later one, where a sweep misses it although it is due. |
| TimerQueue.SweepIsExactIff | src/connector/connector_timerqueue.cpp:73-79 | A sweep takes all entries that are due if and only if none of them is behind one that is not; a sorted queue is such. |
| TimerQueue.SweepSplitsTable | src/connector/connector_timerqueue.cpp:69-95 | A sweep of a queue in order splits the table into the timers that are due and those that are not. |
| TimerQueue.Queue.AddEvent | src/connector/connector_timerqueue.cpp:40-68 | The loop with its in-place swaps computes the queue that `Add` defines, for every queue, duplicates included. |
| TimerQueue.Queue.ProcessEvents | src/connector/connector_timerqueue.cpp:69-95 | Returns the number of leading entries that are due, runs their callbacks in order except empty ones, and keeps the rest. |
| SortedIndex.OneBufferForLife | src/cloudbus/controller/controller_marshaller.cpp:69-138 | Over every run of lookups and deaths, a stream has from its first use to its death one buffer, always the same, and a sweep never takes a living one. |
| SortedIndex.BuffersAreDistinct | src/cloudbus/controller/controller_marshaller.cpp:85-96 | Different streams are given different buffers. |
| SortedIndex.MakeAdds | src/cloudbus/controller/controller_marshaller.cpp:80-96 | Compacting while inserting keeps the vector strictly sorted, keeps every entry whose owner lives, adds only the new entry, and that at the position returned. |
| SortedIndex.Index.Lookup | src/cloudbus/controller/controller_marshaller.cpp:69-98 | Lower bound, sweep, reuse of a freed slot or insertion together are `Visit`, and the position returned is the owner's. |
| SortedIndex.Index.RemoveDead | src/cloudbus/controller/controller_marshaller.cpp:81-87 | The living among the first entries end up in front, in order, and the rest is untouched. |
| SortedIndex.LowerBound | src/cloudbus/controller/controller_marshaller.cpp:73-80 | Binary search finds the position at which an owner is or belongs. |
| Metrics.UpdateEwma | src/metrics/metrics.cpp:25-44 | For every 64-bit difference the result is exactly twice it over four, truncated toward zero, and no intermediate value leaves 64 bits in any branch. |
| Metrics.Average | src/metrics/metrics.cpp:159-165 | The average moves toward the sample, never past it, and halves the distance, rounded up. |
| Metrics.AveragesStayInRange | src/metrics/metrics.cpp:144-189 | Averages never leave the range of what they started from and what was observed. |
| Metrics.AveragesConverge | src/metrics/metrics.cpp:25-44 | At a steady rate the distance halves with every sample, down to one millisecond. |
| Metrics.MetricsAreIndependent | src/metrics/metrics.cpp:127-189 | Over every run, what is stored for a living stream is what its own events alone make of it: no other stream's event and no sweep ever touches it. |
| Metrics.MetricsStayInRange | src/metrics/metrics.cpp:144-189 | Over every run whose clock does not go back, a stored average lies between zero and the largest gap between the stream's events. |
| Metrics.StreamMetrics.FindMetric | src/metrics/metrics.cpp:45-63 | Finds the entry of a living stream if there is one, and otherwise the end. |
| Metrics.StreamMetrics.RemoveAndFindInsertionPoint | src/metrics/metrics.cpp:64-81 | Stops at the first living larger owner, with the living before it compacted in order. |
| Metrics.StreamMetrics.InsertMetric | src/metrics/metrics.cpp:82-142 | Drops only dead entries, keeps all living ones, and returns the position of the new one. |
| Metrics.StreamMetrics.AddEvent | src/metrics/metrics.cpp:144-189 | An event of a dead stream changes nothing and yields -1, the first event makes an entry and yields 0, any other updates that entry only and yields its average. |
| Triggers.Trigger.Set | src/io/io.hpp:151-170 | Interest list and poll set stay strictly sorted with the same descriptors at each index, the map they stand for gets the union, and poll-sized masks stay poll-sized and the very same in both; the poll set never refuses. |
| Triggers.Trigger.Clear | src/io/io.hpp:172-192 | The same for difference, with removal when nothing is left, and -1 exactly if the descriptor is not there. |
| Triggers.LowIsExactIff | src/io/io.hpp:49-56 | The poll set's 16-bit mask equals the 32-bit one if and only if no upper bit is set. |
| Triggers.TablesStayPollSized | src/io/io.hpp:167-190 | Union with a poll-sized mask, and difference with any, keep a table of poll-sized masks one. |
| Triggers.MasksAreExact | src/io/io.hpp:49-56 | While all masks are poll-sized, the poll set holds the very same masks. |
| Triggers.MasksStayPollSized | src/io/io.hpp:167-190 | Union and difference of poll-sized masks are poll-sized. |
| Triggers.Poller.Add | src/io/poller.cpp:18-35 | Inserts at the lower bound, and refuses exactly a descriptor that is there. |
| Triggers.Poller.Update | src/io/poller.cpp:37-55 | Replaces the mask of a descriptor that is there, and nothing else of its entry. |
| Triggers.Poller.Del | src/io/poller.cpp:57-71 | Erases exactly the entry of the descriptor. |
| Search.LowerBound | src/io/io.hpp:152-160 | Binary search over ascending keys finds where a key is or belongs, and whether it is there. |
| Triggers.InsertAgrees | src/io/io.hpp:161-165 | Inserting in both vectors keeps them in step with each other and with the map. |
| SocketBuffers.Sender.Write | src/io/sockbuf.cpp:376-382 | Over every sequence of kernel answers, bytes handed to the kernel followed by bytes pending are all that was written before followed by what this call wrote, in order; it writes all unless the kernel fails. |
| SocketBuffers.Sender.Overflow | src/io/sockbuf.cpp:376-382 | Called on a full buffer: after a flush there is room, so the character is put without overflowing again, or the flush failed and nothing is written. |
| SocketBuffers.Sender.Sync | src/io/sockbuf.cpp:267-309 | No byte is lost or repeated, through reconnection; it leaves room in a buffer that was full, and fails if and only if the kernel answers with an error that is not handled or refuses to connect. |
| SocketBuffers.Sender.Send | src/io/sockbuf.cpp:197-266 | Partial, interrupted and refused sends lose and repeat nothing, and unless there was nothing to send the capacity is the next multiple of 32 KiB above what is pending. |
| SocketBuffers.Sender.ResizeBuffer | src/io/sockbuf.cpp:172-196 | What is left moves to the front, and the buffer is fitted to it. |
| SocketBuffers.Receiver.Recv | src/io/sockbuf.cpp:316-370 | Bytes not yet read stay, and what arrives follows them; nothing on its way is lost; it fails if and only if the kernel reports end of file or an error. |
| SocketBuffers.Receiver.MoveUnread | src/io/sockbuf.cpp:310-315 | Moving what is unread to the front changes no byte of it. |
| SocketBuffers.Receiver.ShowManyC | src/io/sockbuf.cpp:371-375 | More is asked for only when all has been read; the count is that of the bytes to be read, and -1 if and only if the kernel reported end of file or an error. |
| Config.ParsePrint | src/config/config.cpp:336-344 | Every normal configuration, printed in whatever order its sections are visited, reads back as it was. |
| Config.UndefinedIffFaulty | src/config/config.cpp:254-335 | The texts that have no reading are exactly those in which a logical line without a key comes after a heading with a name. |
| Config.ParseIsParseLines | src/config/config.cpp:296-335 | Reading a text, character by character, is splitting it into its logical lines, which the sections have no part in, and parsing these in turn. |
| Config.ParseIsNormal | src/config/config.cpp:254-335 | Whatever is read, from any text that has a reading, is normal. |
| Config.PrintIsStable | src/config/config.cpp:254-344 | Reading, printing and reading again changes nothing, through whitespace collapsing and continuation lines, for every text without a keyless line after a heading. |
| Config.PlainIsStable | src/config/config.cpp:254-344 | In particular for every text none of whose logical lines starts with an equals sign. |
| Config.NoKeyNoReading | src/config/config.cpp:283-290 | A text that has no reading: a heading, then a value without a key. |
| Config.WhenUndefined | src/config/config.cpp:254-295 | Parsing one line steps before its beginning exactly when it is a value without a key and a section is open. |
| Config.Read | src/config/config.cpp:296-335 | The reader, character by character, computes `Parse`. |

## Left out

- Bounds.PendingIsBounded: bounds what data frames add; the 24-byte aborts are written without a check in the source and are not bounded.
- RoundRobin.Interface.Next: weights are unbounded numbers, so a total that wraps 64 bits is not modelled.
- Metrics.MetricsStayInRange: assumes a clock that does not go back, as the steady clock promises; that no value overflows is proved without it.
- SocketBuffers.Sender.Sync: one send buffer on a stream socket; further buffers made by repeated `connectto`, ancillary data and datagrams are not modelled. The kernel's answers are a finite list, after which it has no room; a kernel that interrupts for ever, or that connects and then says it is not connected for ever, would keep the source in its loops.
- Config.PrintIsStable: says nothing of the texts that have no defined reading, which `Config.UndefinedIffFaulty` characterises.
- The event loop itself (`_handle`), accepting, `shutdown` and the order of poll results: the order of steps is arbitrary in the model instead.
- Streams in a failed state while a route writes to them, and reading past a transport's end of file: streams fail through the error handlers only.
- In the segment, a connection whose backend stream has gone while its entry remains: the two are removed together.
- The search for a transport (`select_stream`), address resolution, and callbacks pending on it: a session is given its transports by the step that opens it.
- The proxy, which is not built.
- Names, addresses and URIs in configuration values (`make_address`).
- UUID generation beyond the node bytes being new, and the clock's wrap-around.
- Shrinking of vectors, which does not change their contents; logging; threads, signals and restarts.
- Padding of the frame header, and machines that are not little-endian.
