# Verified model of the tunnel's relay protocol

This Dafny project models the parts of the tunnel that carry a user's bytes, and proves what the
code promises about them for every input, every interleaving and every run:

- the flow-controlled channel multiplexer (`relay/stream.go`, `relay/ctrlconn.go`) and the frames
  under it (`relay/ctrlframe.go`),
- a relayed connection from the public side to the target (`relay/relay.go`, with its callers in
  `relay/remoteserver.go` and `relay/remoteclient.go`),
- session set-up: authentication, registration and the codec of the tunnel list (`relay/auth.go`),
- the server's shared listeners: the round-robin ring, the table and shutdown
  (`relay/remoteserver.go`),
- the tunnel manager (`manager/manager.go`, `manager/config.go`),
- the server side of the SOCKS5 handshake (`relay/socks5.go`).

`dafny verify dfyconfig.toml` checks the whole project.

## How it is built

The multiplexer is a step system at the code's lock granularity, in layers.

| module | what it is |
|---|---|
| `ChannelEnd` | one end of a channel; every function is one critical section of the source or the sending of one frame, and a call that spans several is a program counter |
| `Direction` | one direction of a channel: sender, frames on the way, receiver, credit on its way back; what each step does to the credit, to the bytes and to the end of file |
| `Link` | a channel on its own: two ends, two ordered wires, and the frame each read loop has in its hands between the map lookup and the handler |
| `ChannelTheorems`, `CallTheorems` | what holds in every reachable state of a channel, and what one call of Read, Write, Close or OpenChannel comes to in every run |
| `Mux` | two control connections with any number of channels on two shared wires; projected on one channel id, every run is a run of `Link` |
| `MuxOrder` | the order in which a mux hands out its channels and answers its pings, in every run |
| `Isolation` | the converse: whatever a channel can do on its own, it can do inside the mux without any other channel being served |
| `RelaySystem`, `EndToEnd` | the two `Relay` calls around a channel: safety, termination by a measure, freedom from deadlock, completion inside the mux |
| `ManyRelays` | any number of relayed connections on one mux, opened at any time and scheduled in any order |
| `Bytes`, `Frames`, `WriteLock`, `Messages` | the same wires in bytes: frames, their interleaved writers, payload layouts, and the proof that the bytes carry exactly the frames of the mux |
| `ChannelObject`, `CtrlConnObject`, `RelayObject` | the objects and loops of the source, updated in place; each method is tied to the function of the layer above |
| `Tunnels`, `Handshake` | the Register payload, and session set-up as two sequential programs over two byte streams |
| `RoundRobin`, `Listeners`, `ListenerObjects` | the ring, the table of listeners at lock granularity, and the two objects |
| `Manager`, `ManagerTheorems`, `ManagerObject` | the manager's commands, what they achieve over every history, and the object |
| `Socks` | the handshake methods, the parser they refine, and the encoder of RFC 1928 and RFC 1929 clients |

## What the model found

- An open request is understood if and only if its target is at most 65529 bytes long. The length
  goes out as a `uint16` and `6+targetLen` is a sum of `uint16` values (`relay/ctrlconn.go:95`): the
  read loop of the peer panics if and only if the length modulo 2^16 is 65530 or more, and otherwise
  the target arrives cut to that many bytes (`Messages.NewRoundTrip`).
- A blocked `Write` can outlive its connection: `closeAll` and `CloseWrite` broadcast on `rcond` only
  or not at all. Once its channel has left the map, it is woken by exactly two things, a local
  `Close` and a WindowUpdate frame that had been looked up before
  (`ChannelTheorems.DroppedWriterWakes`); without the second it waits for the first
  (`ChannelTheorems.StrandedWriterStays`, `ChannelTheorems.CloseFreesWriter`), and this does happen
  (`ChannelTheorems.StrandedWriterHappens`).
- The branch of `pushData` that reports an overflow and starts a `Close` cannot be reached between
  two ends of this code (`ChannelTheorems.NothingOverflows`).
- An attached control connection can lose its listener: an attach that comes between the two
  critical sections of a detach joins a listener that is about to be closed. It is exactly this
  attach that breaks the property (`Listeners.AttachedStep`, `Listeners.DoomedAttachHappens`).
- `Manager.Reload` reads the file before it takes the lock, so it can install a config from before
  an `Add` that has succeeded and is saved (`ManagerTheorems.StaleReloadForgets`).
- SOCKS5 credentials with an empty user name or an empty password, or with more than 255 bytes in
  either, refuse every client (`Socks.CanBeServed`).
- The condition at `relay/ctrlconn.go:47` allows for a bare `io.EOF` from `ReadFrame`, but `ReadFrame`
  always wraps it (`relay/ctrlframe.go:33`, `relay/ctrlframe.go:43`), so the read error is always set.
- `DESIGN.md:142-147` gives Ping and Pong one frame type and other numbers to the rest; the model
  follows `relay/ctrlframe.go:9-23`.

## Model

| member | source | states |
|---|---|---|
| ChannelEnd.LocalKeepsEndInv | relay/stream.go:54-155 | every critical section of Read, Write, CloseWrite, Close, OpenChannel and teardown keeps an end sound: a parked or parking goroutine still has a reason to wait or a broadcast coming, the window is not negative, a chunk in hand is not empty, and an end that has gone through Close has left its map |
| ChannelEnd.ReceiveKeepsEndInv | relay/ctrlconn.go:104-148 | the handlers of ChannelData, ChannelClose and WindowUpdate keep the same of the receiving end |
| Direction.LocalAccounts | relay/stream.go:54-155 | what a step takes from the window, the hand, the receive buffer or the credit owed is exactly what it puts on the wire while the connection is up, and never less than that; the send history grows by the frame sent, and the first close frame fixes where the stream ends |
| Direction.LocalAges | relay/stream.go:117-155 | a step never brings an end back into its map or out of its closed state, and end of file comes from it only when the connection is being closed |
| Direction.SenderStep | relay/stream.go:84-128 | a sender's step keeps credit conservation, exact delivery and the meaning of end of file for its direction |
| Direction.ReceiverStep | relay/stream.go:54-74 | a receiver's step keeps the same three |
| Direction.ReceiveDataStep | relay/stream.go:163-176 | handing a data frame to the receive buffer keeps them, and the buffer plus the frame is within one send window |
| Direction.ReceiveStep | relay/ctrlconn.go:104-148 | so does the handler of any frame whose channel was found in the map |
| Direction.DropStep | relay/ctrlconn.go:110-116 | and so does dropping a frame whose channel is no longer in the map |
| Link.AtKeepsInv | relay/stream.go:54-155 | any goroutine's step at either end keeps the invariant of both directions, of both ends and of the order of open requests |
| Link.LookupKeepsInv | relay/ctrlconn.go:86-142 | the read loop's map lookup, separate from the handler's work, keeps it too, and so does making a channel for an open request |
| Link.DeliverKeepsInv | relay/stream.go:163-190 | and so does the handler's work under the channel's own lock |
| Link.NewIsFirst | relay/ctrlconn.go:86-102 | an open request only comes from the server, for a channel the client does not have yet |
| Link.StepKeepsInv | relay/stream.go:54-197 | every step of a channel keeps its invariant |
| Link.RunKeepsInv | relay/stream.go:54-197 | and so does every run, of any length and in any interleaving |
| ChannelTheorems.CreditIsConserved | relay/stream.go:69-113 | in every reachable state: window + chunk in hand + data in flight + receive buffer + bytes read but not credited + credit in flight is 65536 while both ends hold the channel, and never more after any close or teardown |
| ChannelTheorems.DeliveryIsExact | relay/stream.go:54-115 | in every reachable state the bytes read are a prefix of the bytes sent, and read ++ buffered ++ in flight is what was sent while the receiver holds the channel |
| ChannelTheorems.EofIsComplete | relay/stream.go:58-66 | a Read about to return io.EOF, with the connection up and no local close, has returned everything the peer sent before its first close frame |
| ChannelTheorems.WakeupsAreNotLost | relay/stream.go:57-96 | a parked reader has an empty buffer, no error and, after a local Close, its broadcast still to come; a parked writer has a window of zero and, after a local Close, its broadcast still to come |
| ChannelTheorems.NothingOverflows | relay/stream.go:98-196 | the receive buffer stays within 65536 bytes, so the safety cap is never hit; the window stays in 0..65536; the conversion of the credit to uint32 loses nothing; every data and credit frame is within the payload limit |
| ChannelTheorems.ClosedIsGone | relay/stream.go:148-150 | once both ends have gone through Close, the id is in neither channel map |
| ChannelTheorems.GoneStaysGone | relay/ctrlconn.go:150-155 | and no later step of any kind puts it back |
| ChannelTheorems.DroppedWriterWakes | relay/stream.go:87-96 | a parked writer whose channel has left the map is woken by a step if and only if it is the second broadcast of a local Close or the handling of a WindowUpdate frame looked up before |
| ChannelTheorems.StrandedWriterStays | relay/ctrlconn.go:271-278 | a writer parked on a channel that teardown dropped, with no WindowUpdate frame looked up before, stays parked through every run without a local Close |
| ChannelTheorems.StrandedWriterHappens | relay/ctrlconn.go:271-278 | every Write of more than one window can end there: a run from the start in which its connection is torn down while it waits |
| ChannelTheorems.CloseFreesWriter | relay/stream.go:131-146 | from every state with a parked writer on an open channel, a local Close leads to the Write returning its error |
| CallTheorems.ReadReturns | relay/stream.go:54-74 | a Read with room for max bytes, followed from its call in any reachable state through any steps of others to its return: it returns at most max bytes, exactly those taken since the call; an error comes with none, and none without an error only if max is zero |
| CallTheorems.ReadTakesWhatThereIs | relay/stream.go:57-69 | in every reachable state, one pass of Read with bytes buffered takes max of them, or all; without, it returns the end of file that was set or the one of a local Close, and waits otherwise |
| CallTheorems.WriteReturns | relay/stream.go:76-115 | a Write followed in the same way returns the number of bytes it has sent, which are the first ones of its argument: all of them on success and not all on failure; on a channel closed for writing it returns 0 and the error |
| CallTheorems.CloseReachesPeer | relay/stream.go:117-155 | once a CloseWrite or Close is over, with the connection up, its close frame was sent: it is under way, or the peer reads the end of file, or has closed, or is closing its connection |
| CallTheorems.DroppedReaderFails | relay/ctrlconn.go:271-278 | a channel that teardown dropped from its map gives its reader the end of file and keeps no Read waiting |
| CallTheorems.FailedOpenIsGone | relay/ctrlconn.go:186-191 | an OpenChannel whose request could not be sent leaves its id out of the map, and no frame of it under way |
| CallTheorems.LocksExclude | relay/stream.go:54-103 | while Read is on its way to wait or sends its credit, no step of anybody else touches the receiving half; while Write is on its way to wait, none the sending half |
| Mux.StepIsSeen | relay/ctrlconn.go:42-206 | whatever the mux does, each channel id sees one step of its own channel or nothing at all |
| Mux.RunIsChannelRun | relay/ctrlconn.go:42-206 | every run of the mux, seen by one channel, is a run of that channel on its own |
| Mux.ChannelsAreIndependent | relay/ctrlconn.go:42-206 | so every channel of every reachable mux is in a reachable state of a channel on its own |
| Mux.StepKeepsMux | relay/ctrlconn.go:29-40 | every step keeps the ids in use, the accept queue (no id twice, at most 64, exactly the channels not accepted yet) and every channel's invariant |
| Mux.MuxRunKeepsInv | relay/ctrlconn.go:29-40 | and so does every run |
| Mux.IdsAreFresh | relay/ctrlconn.go:172-178 | the k-th open takes the id k modulo 2^32, and in fewer than 2^32 opens that id is in use at neither end, so no live entry is overwritten |
| MuxOrder.AcceptedInOrder | relay/ctrlconn.go:63-206 | in every run, every channel whose request was sent has been accepted, or waits in the queue or to enter it, or has its request on the wire, and all this in the order of the requests: none is lost, repeated or overtaken |
| MuxOrder.BlockedLoopReadsNothing | relay/ctrlconn.go:65-69 | a read loop that waits for room in newCh reads nothing until the waiting channel is queued |
| MuxOrder.PingsAreAnswered | relay/ctrlconn.go:157-161 | while the connection is up, the payloads of the pongs a side has read, of the pongs coming to it and of its pings not read yet are, in this order, those of the pings it has sent |
| Isolation.DrainIsUnseen | relay/ctrlconn.go:42-148 | clearing the way for a channel (other frames, the accept queue, locks about to be given up) changes nothing for that channel |
| Isolation.DrainFalls | relay/ctrlconn.go:42-148 | and every such step lowers a measure, so the way is cleared after finitely many |
| Isolation.LiftStep | relay/ctrlconn.go:42-206 | a step that a channel could take on its own, other than its opening and other than reading its frames while it waits to be accepted, can be taken inside the mux, from any state, after clearing the way |
| Isolation.LiftRun | relay/ctrlconn.go:42-206 | so can every run of an opened channel that reads none of its frames before it is accepted, whatever the other channels are doing |
| Isolation.OthersRest | relay/stream.go:54-155 | in that run no other channel reads a byte, sends one or gets closed: a peer that never reads one channel cannot keep another from completing |
| RelaySystem.StepKeepsRelay | relay/relay.go:26-73 | every step of a relayed connection keeps: nothing of either input is lost, the close frame follows all of it, what came out is what was read, and an end is closed only after its end of file |
| RelaySystem.OutputIsPrefix | relay/relay.go:32-59 | at every moment of every run the target has a prefix of what the public side sends, all of it once it is half-closed, and the same the other way round |
| RelaySystem.CopySizes | relay/relay.go:10-44 | no Write of a relayed connection is of more than 32768 bytes, and every Read has room for exactly that many |
| RelaySystem.CloseDiscardsNothing | relay/remoteserver.go:297-301 | an end leaves its channel map only when no undelivered byte is on its way to it |
| RelaySystem.StepLowers | relay/relay.go:26-73 | every step of a relayed connection lowers a cost of the unsent, in-hand, in-flight, buffered and uncredited bytes and of the program counters |
| RelaySystem.NoWriterStarves | relay/stream.go:84-103 | with nothing on the way and neither side able to move, no Write waits for credit |
| RelaySystem.NoReaderStarves | relay/stream.go:54-68 | nor does any Read wait for data |
| RelaySystem.Progress | relay/relay.go:26-62 | until the connection is finished some step can be taken, without taking a frame while the channel waits to be accepted |
| RelaySystem.RunsAreBounded | relay/relay.go:26-62 | every run is at most as long as the cost it starts with |
| RelaySystem.StuckMeansFinished | relay/remoteclient.go:155-169 | a run that cannot go on, whatever the order of its steps was, has delivered exactly both inputs and both ends of file and left the id in neither map |
| EndToEnd.Completion | relay/relay.go:26-62 | from every state of a relayed connection there is a run to its end |
| EndToEnd.RelayCompletesInMux | relay/relay.go:26-62 | a relayed connection in any state of its own, among channels in any state of theirs, has a run to its end in which no other channel reads, sends or is closed |
| EndToEnd.OpenedConnectionCompletes | relay/remoteserver.go:290-301 | from every reachable state of the mux with the connection up, a connection opened now is relayed to its end in both directions by a run in which no other channel reads, sends or is closed |
| ManyRelays.NextKeepsHub | relay/remoteserver.go:278-301 | with any number of relayed connections on one mux, every step of any of them, of the read loops, of the acceptor, of pings and of new opens keeps the relay invariant of every connection |
| ManyRelays.OneMoves | relay/ctrlconn.go:42-206 | such a step is one step of at most one connection and leaves the others exactly where they were |
| ManyRelays.HubStepLowers | relay/relay.go:26-73 | every such step but an open or a ping lowers the sum of all costs and of what is queued |
| ManyRelays.HubProgress | relay/relay.go:26-73 | while one connection is not finished, some relay, read loop or acceptor can take a step |
| ManyRelays.HubRunsAreBounded | relay/relay.go:26-73 | every run, in any order, is no longer than the work that its opens and pings bring in, and what there was before |
| ManyRelays.AllRelaysFinish | relay/remoteserver.go:278-301 | in every run from the start, once no relay, read loop or acceptor can move, every connection ever opened has delivered exactly both inputs and both ends of file, and its id is in neither map |
| ManyRelays.EveryDialIsServed | relay/remoteserver.go:278-301 | and these are the connections that came in: there is one for each, in order, and its two sides have been given what the other was to send |
| Bytes.Conn.Read | relay/ctrlframe.go:30-32 | one Read gives any non-zero number of the bytes still to come, or none at the end of file |
| Bytes.Conn.ReadFull | relay/ctrlframe.go:32-42 | io.ReadFull fills its buffer with the next bytes however they are split over reads, or reports which of the two end-of-file errors applies |
| Frames.ReadFrame | relay/ctrlframe.go:30-47 | reads exactly one frame and no byte after it, or fails: the contract says on the input bytes when there is a frame, what it is, and which of the five failures comes otherwise |
| Frames.WriteFrame | relay/ctrlframe.go:49-65 | writes the whole frame, length in network order, type and payload, or nothing when the payload is over 16777216 bytes or the connection is down for the whole call |
| Frames.FrameFormat | relay/ctrlframe.go:49-65 | byte by byte: the length in network order, the type, the payload |
| Frames.DecodeEncoded | relay/ctrlframe.go:30-65 | what WriteFrame writes is read back as the same frame with whatever follows left unread |
| Frames.EncodeDecoded | relay/ctrlframe.go:30-65 | and only an encoded frame within the limit is read as a frame |
| Frames.StreamIsDecoded | relay/ctrlconn.go:42-56 | a stream of whole frames and then part of one more is read as exactly the whole frames |
| Frames.ReadLoop | relay/ctrlconn.go:42-56 | the read loop gets exactly the frames of the byte stream, in order, up to the error, for every segmentation |
| WriteLock.WireIsWholeFrames | relay/ctrlconn.go:157-169 | for any writers in any interleaving, stopped anywhere, the wire holds the whole frames in lock order and at most part of the lock holder's frame, and the peer decodes exactly those |
| WriteLock.WriterOrderKept | relay/ctrlconn.go:163-169 | no frame of a writer is lost, repeated or reordered with its other frames |
| WriteLock.NothingAfterBreak | relay/ctrlconn.go:163-169 | once the connection has broken, no byte more is written and no further call succeeds |
| Messages.NewRoundTrip | relay/ctrlconn.go:86-102 | handleNewChannel recovers the id and target of OpenChannel's payload if and only if the target is at most 65529 bytes; it panics if and only if the length modulo 2^16 is 65530 or more; otherwise it gets that many bytes of the target |
| Messages.MessageFormat | relay/ctrlframe.go:9-18 | byte by byte, for every message of a channel: type 3, 4, 5 or 9, the id in network order, and then the length of the target and the target, the data, nothing, or the amount of credit |
| Messages.ParseOnBytes | relay/ctrlconn.go:63-148 | what a handler makes of a frame of type 1, 2, 3, 4, 5, 9 or any other, on the bytes of its payload |
| Messages.ItemRoundTrip | relay/ctrlconn.go:63-148 | every handler recovers the channel id, the kind and the contents of every frame that the mux can send |
| Messages.WireIsRepresentable | relay/stream.go:105-113 | every frame of every reachable mux fits the widths and limits of the format |
| Messages.BytesCarryTheMux | relay/ctrlconn.go:42-148 | in every reachable state, the bytes of a wire are read back as exactly its frames in order, and each handler recovers its frame |
| ChannelObject.Channel.ReadPass | relay/stream.go:57-69 | one pass of Read's loop on the object is ReadLoopStep; with bytes buffered it takes at most max of them, max exactly or all there are, and keeps the rest; without, it returns the error set, the end of file of a local Close, or goes to wait |
| ChannelObject.Channel.SendWindowUpdate | relay/stream.go:192-197 | sends the credit of what was read, as the bytes of a frame of type 9, and lets Read return |
| ChannelObject.Channel.PushData | relay/stream.go:163-176 | appends to the receive buffer and wakes the reader, or, beyond 262144 bytes, sets the overflow error, wakes the reader and has a Close started |
| ChannelObject.Channel.SetError | relay/stream.go:178-183 | sets the read error and wakes the reader |
| ChannelObject.Channel.AddSendWindow | relay/stream.go:185-190 | adds the credit and wakes the writer |
| ChannelObject.Channel.WritePass | relay/stream.go:85-103 | one pass of Write's loop on the object is WriteLoopStep: the chunk is cut by the window and deducted before it is sent |
| ChannelObject.Channel.SendChunk | relay/stream.go:105-112 | sends the chunk in hand as the bytes of one frame of type 4 and counts it, or returns the count of the chunks before it when it cannot |
| ChannelObject.Channel.Write | relay/stream.go:76-115 | the whole of Write, for any credit arriving while it waits: it sends a prefix of its argument, in order, in non-empty data frames the window covers; it completes, waits with the window at zero and all credit used, or fails, exactly when the contract says |
| ChannelObject.Channel.MarkWriteClosed | relay/stream.go:117-124 | CloseWrite acts only on an open channel, also while a Write is in progress |
| ChannelObject.Channel.SendClose | relay/stream.go:126-128 | sends the close frame, as the bytes of a frame of type 5 |
| ChannelObject.Channel.MarkClosed | relay/stream.go:131-138 | the first call of Close sets the status and goes on, every other one does nothing |
| ChannelObject.Channel.BroadcastReader | relay/stream.go:140-142 | its second section wakes the reader, under rmu |
| ChannelObject.Channel.BroadcastWriter | relay/stream.go:144-146 | its third section wakes the writer, under wmu |
| CtrlConnObject.CtrlConn.HandleFrame | relay/ctrlconn.go:63-148 | what each frame type does, from the bytes of the payload: 4 adds the data to the buffer of the channel with the id in front, 5 sets its end of file, 9 adds the credit to its window, 3 makes, queues or blocks on a new channel or panics, 1 is answered with its payload; no other channel is touched and nothing else has an effect; and that is what the model does with the message parsed |
| CtrlConnObject.CtrlConn.HandleNewChannel | relay/ctrlconn.go:86-102 | ignores a payload that is cut short, panics exactly when the length of the target is 65530 or more, and otherwise puts a fresh channel with that id and target in the map, and queues it or blocks at 64 |
| CtrlConnObject.CtrlConn.HandleChannelData | relay/ctrlconn.go:104-117 | the bytes after the id go to the receive buffer of the channel with that id, if there is one, or overflow it |
| CtrlConnObject.CtrlConn.HandleChannelClose | relay/ctrlconn.go:119-132 | the channel with that id, if there is one, has its end of file set |
| CtrlConnObject.CtrlConn.HandleWindowUpdate | relay/ctrlconn.go:134-148 | the window of the channel with that id, if there is one, grows by the amount in network order, and its writer is woken |
| CtrlConnObject.CtrlConn.HandlePing | relay/ctrlconn.go:157-161 | answers with the bytes of a frame of type 2 with the same payload |
| CtrlConnObject.CtrlConn.OpenChannel | relay/ctrlconn.go:171-193 | takes nextID with wrap-around at 2^32, puts a fresh channel in the map and sends the request, whose bytes the contract gives; when sending fails the id is removed again |
| CtrlConnObject.CtrlConn.RemoveChannel | relay/ctrlconn.go:150-155 | removes one id |
| CtrlConnObject.CtrlConn.CloseChannel | relay/stream.go:131-155 | without interruption, the first Close of a channel wakes both sides, removes its id and sends its close frame, and later ones do nothing |
| CtrlConnObject.CtrlConn.CloseAll | relay/ctrlconn.go:271-278 | empties the map, gives every reader the end of file and leaves every writer as it was |
| RelayObject.CopyBuffer | relay/relay.go:32-44 | copies exactly the rest of the source, in order, and counts it; fails only on a failed write |
| RelayObject.Relay | relay/relay.go:26-73 | with both connections up each gets exactly what the other still sends and is then half-closed, and Stats says how much |
| Tunnels.PackTunnels | relay/ctrlconn.go:214-235 | the loop builds the packed form, with counts and lengths cut to uint16 |
| Tunnels.PackFormat | relay/ctrlconn.go:214-235 | byte by byte: the number of tunnels, and for each its port, and its two addresses with their lengths in front, all in network order |
| Tunnels.UnpackTunnels | relay/ctrlconn.go:237-269 | the loop gives the list or the same one of the five errors that the entry-by-entry reading gives |
| Tunnels.UnpackEntry | relay/ctrlconn.go:245-266 | one pass cuts one entry off the front of the data; the contract says on its bytes which entry, or which of the four errors |
| Tunnels.PackRoundTrip | relay/ctrlconn.go:214-269 | unpacking recovers the packed list, whatever follows it, if and only if it has fewer than 2^16 entries with strings shorter than 2^16 bytes |
| Tunnels.UnpackedIsPacked | relay/ctrlconn.go:237-269 | whatever is unpacked, packed again, is a prefix of the data it was read from |
| Handshake.AuthClient | relay/auth.go:9-28 | the client writes its token as the bytes of a frame of type 6, reads one frame and succeeds exactly on one of type 7 whose first byte is not zero |
| Handshake.AuthServer | relay/auth.go:30-56 | the server reads one frame of type 6, answers [1] in a frame of type 7 if its token is its own and [0] otherwise, and fails without an answer on a malformed request or a dead connection |
| Handshake.ClientHandshake | relay/remoteclient.go:107-119 | authentication only with a token, then the tunnel list in a frame of type 8 |
| Handshake.ServerHandshake | relay/remoteserver.go:85-98 | authentication only with a token, then a frame of type 8 with a tunnel list, then the multiplexer |
| Handshake.HandshakeAgrees | relay/remoteserver.go:85-98 | for both sides together over the two streams: the server starts the multiplexer if and only if the tokens are equal (empty meaning none) and at most 65535 bytes; it then has the client's list, and both sides leave the first byte of the other's frames unread |
| Handshake.SessionHappens | relay/remoteclient.go:107-119 | such a session exists for every two tokens, equal or not, every list that fits and every pair of frame streams |
| RoundRobin.RingRunKeepsInv | relay/remoteserver.go:180-293 | after every run of attach, detach and dispatch, order has no duplicates and the same members as conns, and next is in range |
| RoundRobin.DetachKeepsTurns | relay/remoteserver.go:219-246 | after a detach the ring reads cyclically from next as before, with the detached connection left out |
| RoundRobin.DispatchRotates | relay/remoteserver.go:278-288 | dispatch serves the first of the reading and moves it to the end |
| RoundRobin.AttachInserts | relay/remoteserver.go:185-190 | a new connection gets its turn after those from next to the end of order |
| RoundRobin.RoundReturns | relay/remoteserver.go:285-287 | n dispatches over n connections serve the reading in order and leave the ring as it was |
| RoundRobin.DispatchIsFair | relay/remoteserver.go:285-287 | k dispatches over n connections choose each of them floor(k/n) or ceil(k/n) times |
| RoundRobin.TurnMoves | relay/remoteserver.go:180-293 | a dispatch brings a waiting connection's turn nearer by one, an attach delays it by at most one, a detach never |
| RoundRobin.WaitIsBounded | relay/remoteserver.go:180-293 | a connection that stays attached is served within its distance at the start plus the number of later attaches, whatever detaches occur |
| RoundRobin.TargetIsOfLastJoin | relay/remoteserver.go:180-246 | after every run of attach, detach and dispatch, a connection is attached exactly if it has joined since it last left, and its target is that of its last join |
| RoundRobin.DispatchHasTarget | relay/remoteserver.go:285-287 | so the connection that dispatch chooses always has a target, and it is that one |
| Listeners.ServerKeepsInv | relay/remoteserver.go:172-362 | every critical section of attach, detach, dispatch, tracking and Close keeps the table's invariant |
| Listeners.ServerRunKeepsInv | relay/remoteserver.go:172-362 | and so does every interleaving of them |
| Listeners.OpenIsTheEntry | relay/remoteserver.go:172-217 | in every run an open listener is the table's entry for its port and bind address, so at most one is open for each |
| Listeners.CloseIsFinal | relay/remoteserver.go:336-362 | once the first Close call has returned, no listener is open or is ever made again, no connection is ever tracked again, and every connection still tracked has been closed |
| Listeners.AttachedStep | relay/remoteserver.go:219-256 | while the server is up, a step breaks "attached connections have open listeners, none about to be closed" if and only if it attaches to a listener that a detach has emptied and is about to close |
| Listeners.AttachedListenersAreOpen | relay/remoteserver.go:219-256 | in every run without such an attach, and without a Close, an attached connection has an open listener |
| Listeners.DoomedAttachIsLost | relay/remoteserver.go:248-256 | after such an attach the detach closes the listener under the attached connection |
| Listeners.DoomedAttachHappens | relay/remoteserver.go:219-256 | a run in which that happens |
| Listeners.RingsAreIndependent | relay/remoteserver.go:160-293 | in a run of the whole server the ring of one listener moves only by its own attaches, detaches and dispatches, so fairness and bounded waiting hold for each of them |
| Listeners.TargetIsOfLastAttach | relay/remoteserver.go:172-246 | in every run of the whole server, the target a listener has for a connection is that of the last attach of that connection that got this listener, made or joined, unless it detached since |
| Listeners.DispatchGoesToLastTarget | relay/remoteserver.go:285-290 | so every dispatch of every listener goes to that target |
| ListenerObjects.SharedListener.constructor | relay/remoteserver.go:205-212 | a new listener is open and has one connection, with its target, whose turn it is |
| ListenerObjects.SharedListener.Attach | relay/remoteserver.go:181-195 | unless the listener is closed, the connection gets the target given, whether it was attached or not, every other connection keeps its own, and only a new one is appended to the order |
| ListenerObjects.SharedListener.Detach | relay/remoteserver.go:220-246 | the search, the removal from the slice and the repair of next do what the ring's detach does, and ask for a close exactly when the last connection left |
| ListenerObjects.SharedListener.Dispatch | relay/remoteserver.go:278-288 | chooses the connection at next modulo the number of connections, with its own target, and advances next by one |
| ListenerObjects.SharedListener.Close | relay/remoteserver.go:304-313 | the first call closes the listener and the network listener under it |
| ListenerObjects.RemoteServer.AttachSharedListener | relay/remoteserver.go:172-217 | joins an open listener and sets the target there, replaces a stale entry, or makes a listener when the port can be bound, with that one connection; nothing on a closed server, and only the stale entry goes when the port cannot be bound; the new state is the step of the table |
| ListenerObjects.RemoteServer.JoinOrDrop | relay/remoteserver.go:180-198 | an entry that is found is joined if it is open, and dropped if it is stale |
| ListenerObjects.RemoteServer.DetachSharedListener | relay/remoteserver.go:219-257 | without interruption, detach is its three steps of the table one after the other: the listener is closed exactly if it was emptied, and its entry then goes if it is still this one |
| ListenerObjects.RemoteServer.DetachSection | relay/remoteserver.go:220-246 | the first section of detach is the table's Detach step |
| ListenerObjects.RemoteServer.CloseSection | relay/remoteserver.go:248-249 | its Close is the step that shuts the listener |
| ListenerObjects.RemoteServer.DropSection | relay/remoteserver.go:250-255 | its last section drops the entry only if it is still this listener |
| ListenerObjects.RemoteServer.TrackConn | relay/remoteserver.go:115-123 | a connection is tracked unless the server is closed |
| ListenerObjects.RemoteServer.UntrackConn | relay/remoteserver.go:125-129 | and forgotten |
| ListenerObjects.RemoteServer.BeginClose | relay/remoteserver.go:337-351 | the first Close takes a snapshot of all tracked connections and all listeners of the table; later calls do nothing |
| ListenerObjects.RemoteServer.Close | relay/remoteserver.go:336-362 | without interruption, the first Close leaves every tracked connection and every listener of the table closed |
| Manager.DoKeepsInv | manager/manager.go:82-411 | every command keeps: running tunnels are configured and run what their config asks for, and every stop channel ever made is closed or belongs to exactly one running tunnel |
| Manager.HistoryKeepsInv | manager/manager.go:82-411 | and so does every history of commands, with saves that fail and other writers of the file |
| ManagerTheorems.RunningIsConfigured | manager/manager.go:346-411 | in every history from configs without repeated names, each running tunnel is the one configured under its name, up to its autostart flag |
| ManagerTheorems.ChannelsAreAccountedFor | manager/manager.go:375-379 | in every history, each stop channel made is closed or the channel of exactly one running tunnel, never both: none is leaked and none can be closed twice |
| ManagerTheorems.ClosesWhatItStops | manager/manager.go:105-141 | a command closes exactly the channels of the tunnels it takes out of the map |
| ManagerTheorems.StartEachStarts | manager/manager.go:88-169 | a pass over the configs leaves running tunnels alone and starts exactly the selected ones of known mode, with their own configs |
| ManagerTheorems.StartStartsAutostart | manager/manager.go:82-97 | after Start a tunnel runs exactly if it ran before or has a config of its name with the autostart flag and mode local, dynamic or remote; it then runs with such a config; running ones are untouched, and config, file and stop channels stay |
| ManagerTheorems.StartGroupStartsGroup | manager/manager.go:155-169 | the same for StartGroup and the configs of the group, with the flag or without |
| ManagerTheorems.ReloadRunsAutostart | manager/manager.go:269-279 | Reload leaves running exactly the names with an autostart tunnel of known mode in the config it read, each with such a tunnel's config and on a new channel |
| ManagerTheorems.StopGroupStopsGroup | manager/manager.go:143-153 | StopGroup removes exactly the running tunnels whose configured group it is |
| ManagerTheorems.StopGroupUndoesStartGroup | manager/manager.go:143-169 | StartGroup and then StopGroup leaves exactly the tunnels of other groups that ran before |
| ManagerTheorems.SuccessIsSaved | manager/manager.go:230-335 | a successful Add, Remove, Enable, Disable or Save leaves in the file what is in memory |
| ManagerTheorems.SyncIsKept | manager/manager.go:230-335 | exactly which commands make memory and file disagree: a failed save that leaves something else, another writer, or a Reload that installs another config than the one in memory |
| ManagerTheorems.StaleReloadForgets | manager/manager.go:269-279 | a Reload whose file was read before a successful Add drops the added tunnel from memory while the file has it |
| ManagerTheorems.RemoveUndoesAdd | manager/manager.go:230-263 | Remove after Add restores the configs, the file and the running tunnels |
| ManagerTheorems.AddWorks | manager/manager.go:230-247 | a successful Add leaves the tunnel running exactly if it autostarts, and no other tunnel changes |
| ManagerTheorems.RemoveWorks | manager/manager.go:249-263 | Remove stops the tunnel even when it fails, and no other |
| ManagerTheorems.EnableWorks | manager/manager.go:281-297 | a successful Enable leaves the tunnel running, undisturbed if it ran, and no other changes |
| ManagerTheorems.DisableWorks | manager/manager.go:299-315 | a successful Disable stops the tunnel and no other |
| ManagerTheorems.RestartWorks | manager/manager.go:317-329 | a Restart succeeds exactly for a configured tunnel of known mode, which then runs as it is configured now on a new channel |
| ManagerObject.Manager.CloseChannel | manager/manager.go:377 | closing a stop channel demands that it is open, as close panics otherwise; every caller meets this |
| ManagerObject.Manager.FindConfig | manager/manager.go:337-344 | the loop finds the first config of that name |
| ManagerObject.Manager.StartTunnel | manager/manager.go:346-411 | a tunnel that runs stays as it is; otherwise mode local runs the chain if there are hops and local if not, dynamic runs dynamic, remote runs the server without a server address and with one the multi client for more than one connection and the single client for others; the error of an unknown mode comes exactly for a tunnel that does not run and has none of the three |
| ManagerObject.Manager.StartSelected | manager/manager.go:88-169 | the loop is the pass over the configs |
| ManagerObject.Manager.StopTunnel | manager/manager.go:137-141 | closes the tunnel's channel once and removes its entry, and nothing else |
| ManagerObject.Manager.StopNames | manager/manager.go:105-122 | stopping a set of tunnels in any order removes exactly them |
| ManagerObject.Manager.Start | manager/manager.go:82-97 | is the command Start |
| ManagerObject.Manager.Stop | manager/manager.go:99-122 | is the command Stop and leaves no tunnel running |
| ManagerObject.Manager.StopGroup | manager/manager.go:143-153 | is the command StopGroup |
| ManagerObject.Manager.StartGroup | manager/manager.go:155-169 | is the command StartGroup |
| ManagerObject.Manager.Add | manager/manager.go:230-247 | is the command Add, with its failures: exactly the new config is appended and saved, or, for a name that is taken, nothing changes |
| ManagerObject.Manager.Remove | manager/manager.go:249-263 | is the command Remove, with its failures: exactly the first config of that name leaves the list, which is saved |
| ManagerObject.Manager.Reload | manager/manager.go:269-279 | is Load and then Swap when nothing comes in between; a file that cannot be read changes nothing, a missing one is an empty config, and else the config becomes what the file holds |
| ManagerObject.Manager.Enable | manager/manager.go:281-297 | is the command Enable, with its failures: exactly the autostart flag of the first config of that name is set, and saved |
| ManagerObject.Manager.Disable | manager/manager.go:299-315 | is the command Disable, with its failures: exactly that flag is cleared, and saved, and only then the tunnel stopped |
| ManagerObject.Manager.Restart | manager/manager.go:317-329 | is the command Restart, with its failures |
| ManagerObject.Manager.Save | manager/manager.go:331-335 | is the command Save, with its failure |
| ManagerObject.Manager.SaveConfig | manager/config.go:79-91 | writes the config in memory, or leaves the file in any state and says so |
| Socks.ChooseMethod | relay/socks5.go:48-65 | the search chooses the password method exactly when credentials are configured and it was offered |
| Socks.LoginOnBytes | relay/socks5.go:142-182 | what the parser of a login writes, leaves and answers, by the place of each byte in the input |
| Socks.RequestOnBytes | relay/socks5.go:73-139 | the same for the parser of a request |
| Socks.ReadGreeting | relay/socks5.go:31-71 | on the bytes of the greeting: what is answered, [5, 0], [5, 2] or [5, 255], which method is chosen, what is left unread, and which refusal comes exactly when |
| Socks.PasswordAuth | relay/socks5.go:141-182 | on the bytes of the login: [1, 0] is written if and only if it succeeds, [1, 2] if and only if the user name or the password has length zero, [1, 1] if and only if the version is not 1 or a complete login does not match, and nothing if and only if the input is cut short; and which refusal comes exactly when |
| Socks.ReadDestination | relay/socks5.go:91-138 | reads the address and port and builds the raw form by appends |
| Socks.ReadRequest | relay/socks5.go:79-89 | on the bytes of the request: served if and only if it is whole, version 5, command 1 and address type 1, 3 or 4, with exactly its raw form, address and port, and nothing after it read; and which refusal comes exactly when |
| Socks.Handshake | relay/socks5.go:28-139 | the whole handshake, for every segmentation: what it writes, what it leaves unread and its result are those of the parser |
| Socks.HandshakeServes | relay/socks5.go:28-182 | every well-formed client, on a connection that takes the replies, is served if and only if it sends a login exactly when credentials are configured, and then offered the password method and sent both of them; it gets its own address and port, and the first byte left unread is the first one after its handshake |
| Socks.ServedIsEncoded | relay/socks5.go:28-182 | whatever is served is the encoding of a well-formed client: with credentials configured, one that offered the password method and sent both of them |
| Socks.CanBeServed | relay/socks5.go:152-174 | some client can be served if and only if no credentials are configured or both have 1 to 255 bytes |

## Left out

- Sockets, TLS, certificates and identity files: a connection is a reliable byte stream in each direction that may go down.
- A connection that fails for one sender and not for the other: in the mux it goes down for both at once, and frames already sent may still arrive, or not.
- Wall clock: KeepAlive's interval and timeout, dial and stop timeouts, the retry loop of `listenTunnel`, health checks, back-off with jitter and the reconnect loop of `RemoteClient.Run`. Ping frames carry 8 bytes and may be sent at any time.
- Peers that do not follow the protocol, beyond what a single handler does with any frame.
- Opens by the client: only the server opens channels, as in the source. On the server an open request from the peer is not part of the mux.
- MuxOrder.AcceptedInOrder: AcceptChannel on a connection that has ended, which may give its error although a channel is queued.
- Mux.IdsAreFresh: for fewer than 2^32 opens, since nextID wraps around and OpenChannel overwrites an entry without looking.
- Frames.WriteFrame: a connection that fails between the header and the payload; WriteLock has frames written in pieces of any size and a connection that breaks at any byte.
- Mux.StepKeepsMux: OpenChannel steps carry targets of at most 65529 bytes, since a longer one is not understood or ends the peer's read loop (Messages.NewRoundTrip); the object's OpenChannel has no such limit.
- RelaySystem.StuckMeansFinished: one writer and one reader for each end of a channel, as in Relay, and no I/O error; a Relay whose outside connection fails is not part of this model.
- ChannelObject.Channel.Write: the credit that arrives is bounded by the window, as ChannelTheorems.CreditIsConserved proves it is; credit from a peer that sends more is not part of the contract. The connection is up or down for the whole call there; in the step system it may go down at any step.
- ChannelEnd.LocalKeepsEndInv: `closeAll` is one step for each channel, with anything in between, where the source holds `cmu` throughout; the goroutine that `pushData` starts on overflow is no step of its own, since the branch is unreachable.
- CtrlConnObject.CtrlConn.HandleFrame: what the read loop does once it has the locks; waiting for a lock is a matter of the step system. The same holds for CtrlConnObject.CtrlConn.CloseAll.
- ChannelObject.Channel.PushData: tells its caller to start the Close that the source starts as a goroutine.
- Handshake.ClientHandshake: a connection that fails in the middle of set-up; it is up or down for the whole of it, also in the other handshake methods and in Socks.Handshake.
- Handshake.HandshakeAgrees: for tunnel lists whose packed form fits one frame (2^24 bytes); a larger one makes the client give up.
- Deadlock of two read loops on bounded wires: the wires of the mux are unbounded, while Read holds `rmu` when it sends credit.
- RelayObject.Relay: the two copies run one after the other there; RelaySystem has their interleavings, with each end's half-close. Counters are unbounded integers.
- RelayObject.CopyBuffer: a read that fails other than at the end of file, and a destination that fails in the middle of the copy.
- ManyRelays.AllRelaysFinish: no I/O error and no closing of the control connection; fewer than 2^32 opens.
- ListenerObjects.RemoteServer.TrackConn: connections are told apart by a number of their own, as pointers tell them apart in the source; closing one sets its flag, and what that does to its channels is in CtrlConnObject.CtrlConn.CloseAll.
- The bodies of `Serve`, `acceptLoop`, `serveRemoteTunnel` and `RemoteServer.Wait`; `RemoteClient.Close` and its status fields.
- Manager: what a tunnel's goroutine does after it is started, and its status; an entry of the map says that a tunnel was started, not that it serves. The YAML text of the config: a file holds a config, is missing, or cannot be read. The config path is the same for saving and loading.
- Socks: the text form of addresses, the reply after connecting, and which method a client without credentials offered, since the code does not look at it.
- The forwarding-spec parsers, LogBuffer, KnownHosts, the UDP, TCP and chain proxies, systemd texts, the command line and the control socket.
