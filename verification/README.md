# qmux, modelled and proved in Dafny

qmux carries QUIC's streams, flow control and datagrams over one reliable,
ordered transport (draft-ietf-quic-qmux-02). This project models the core of the
Go implementation and proves what that core is for: two endpoints running it
implement reliable byte streams, never accuse each other of a violation and never
run out of credit for good; and one endpoint keeps its invariants whatever its
peer sends. `dafny verify dfyconfig.toml` checks everything.

## How it is built

A *section* is everything that runs under one hold of the connection's mutex.
Each section is a function from one state to the next, and the connection's
classes are proved to do the same to their fields, step by step.

| file | what it holds |
|---|---|
| `Basics`, `StreamIds`, `Frames`, `Varint` | bytes, stream identifiers, frames and parameters, variable-length integers |
| `Endpoint` | the state of one endpoint and every section: frame handlers, application calls, control queue, closing |
| `EndpointInvariants`, `Evolution`, `Runs` | one endpoint against any peer and any application: what every section keeps, what never goes back, whole runs |
| `Answers`, `FrameAnswers` | what each call answers and each frame brings about, exactly when and with which numbers, said without the sections |
| `Limits`, `Peeking`, `Stalls` | only reading moves a stream's limit: what Peek can come to, and why windows of one byte stall |
| `Traffic`, `Speaking` | what a sequence of frames says, and that what an endpoint says agrees with what it did |
| `Nodes` | the write lock, the write loop and the steps of closing, interleaved freely with the sections |
| `Hearing`, `Pairs`, `PairTheorems` | two endpoints joined by two ordered channels, and the theorems about them |
| `Writing`, `ErrorCodes` | what the applications see over whole runs: the bytes they write and read, the end of streams, the error codes they give |
| `ParamCodec`, `FrameCodec`, `FrameReader` | the encoding of parameters and frames, a grammar that stops at the first short read, and the reader that does not |
| `Formats`, `ParamFormats` | the formats byte by byte, with their numbers written out |
| `Records`, `Wire` | frame sizes, splitting the control queue into records, and that all an endpoint sends can be encoded |
| `Handling`, `ReadBuffer`, `Conn` | handling whole records, the read buffer in its array, and the `Stream` and `Conn` classes |
| `Datagrams` | what SendDatagram answers |
| `EndToEnd` | that neither end accuses the other, down to the framed bytes on the wire, and what the peer's close does to the read loop |
| `WriteLock` | the priority write lock: its heap, the class and every run of it |
| `Framing` | the Size field, records on byte streams and on messages |

The argument for the pair runs through *digests*. The frames an endpoint has put
on the wire are folded into what they say about each stream and about the
connection. `Speaking` shows that an endpoint's own state always equals the digest
of all it has said, with the control queue counted last; this is where holding the
write lock from taking credit to writing the data is needed. `Hearing` shows that
the other endpoint's state equals the digest of the part it has handled. Digests of
a beginning are beginnings of digests, and the theorems compare the two.

The hypotheses are the ones the code has. `Wire` and `EndToEnd` need limits below
2^62, at most 2^60 streams of a kind and error codes below 2^62; `NoRoomToGrow` says
exactly when the second fails, since in.max is not capped, and `GrantRefused` is a run
in which it does. Progress needs windows of at least two; `OneByteWindow` and
`OneByteStream` show that it fails for one, on the connection and on a stream. The
documentation of Peek allows a whole window. `PeekWholeWindow` says when that much can
still arrive without reading, and `WholeWindowPeekStalls` gives, for every configuration
with a stream window of at least two, a connection window of at least one and at least
one stream of the peer, a run after which it never does. The payload size that
SendDatagram names wraps below zero exactly for a limit of one (`HintUnderflows`).

## Model

| member | source | states |
|---|---|---|
| `Writing.ReliableRun` | qmux/stream.go:240-254 | Reliable byte streams as the applications see them. In every run of two endpoints, both ways: for a stream neither reset nor abandoned by its reader, the bytes reads returned ++ unread ++ in flight are exactly the bytes handed to writes, each as far as the stream took it from the front |
| `Writing.PairRunData` | qmux/stream.go:338-352 | Over any run of the pair, what an end put on the wire for a stream is what its application handed over, and what was read is what its application was given |
| `Writing.WriteLoop` | qmux/stream.go:240-254 | A loop that goes on with what is left of p after each call, interleaved with anything else, adds the bytes of p in order, none twice and none left out |
| `Conns.Conn.WriteChunk` | qmux/stream.go:338-352 | One round of the write loop: a stream that is ready takes at least one byte and at most 16357, the frame carries exactly the first bytes of p and the stream's data grows by exactly those; a stream that is not ready takes nothing |
| `Conns.Conn.WriteSome` | qmux/stream.go:240-254 | The write loop: total bytes were sent, the frames carry exactly p[..total], and less than all of p only if the stream was not ready |
| `Writing.EndComes` | qmux/stream.go:143-167 | Once the writer closed the stream and everything was delivered and read, the reader gets EOF |
| `ErrorCodes.CodesAgree` | qmux/stream.go:389-415 | In every run of two endpoints, an error an end has from its peer carries the code with which the peer's side of the stream was ended, and an end asked to stop was asked with the code the peer's reader gave |
| `ErrorCodes.ResetComes` | qmux/conn.go:699-730 | Once everything was delivered, the reader of a stream that was reset has an error; if it is the peer's, it has the writer's code |
| `ErrorCodes.StopDelivered` | qmux/stream.go:398-403 | A STOP_SENDING on the wire carries its reader's code; an end that still sends on the stream takes that code, and resets with it and with all it sent as the final size |
| `PairTheorems.PeerKnown` | qmux/conn.go:187-202 | An end that is ready knows each limit of the other's configuration, idle timeout and record size included |
| `PairTheorems.ReliableStream` | qmux/stream.go:309-387 | Two endpoints, any interleaving: for a stream neither reset nor abandoned by its reader, bytes read ++ unread ++ in flight is exactly the sender's log of reserved bytes; ReliableRun says which bytes those are |
| `PairTheorems.SenderHasIt` | qmux/conn.go:666-697 | A stream the receiver has and the sender does not has received nothing: no data, no end, no reset |
| `PairTheorems.EndOfStream` | qmux/stream.go:143-167 | A reader sees EOF only after everything the sender reserved was read, and only if the sender closed the stream |
| `EndToEnd.CloseDelivered` | qmux/conn.go:592-596 | In every reachable pair, the next frame on the wire is taken for the peer's close if and only if it is a CONNECTION_CLOSE, changes nothing then, and is fine otherwise |
| `EndToEnd.CloseEndsReading` | qmux/conn.go:336-367 | A read loop that comes upon the peer's close among delivered records ends with it: whatever follows is not looked at |
| `EndToEnd.OversizeReported` | qmux/conn.go:336-367 | A read loop that comes upon a record over the limit ends with violation 0x07, and what came before it stands |
| `PairTheorems.ReadIsNext` | qmux/stream.go:143-167 | On every reachable state, what a read returns is the next part of the stream, and not empty for a non-empty buffer |
| `PairTheorems.NoAccusation` | qmux/conn.go:546-802 | In every reachable state of two endpoints, for any configurations, the next frame on the wire is never answered with a wire.Error: not flow control, stream limit, stream state, final size, order, ping or datagram size |
| `EndToEnd.NeverAccused` | qmux/conn.go:336-367 | On the wire as it is: put into records as the sender does, framed with their sizes and read back, the sender's frames give no record over the receiver's declared size, and the receiver's parser and handlers report no violation, given valid configurations, limits below 2^62, at most 2^60 streams of a kind and error codes below 2^62 |
| `EndToEnd.RecordFitsPeer` | qmux/transport.go:67-79 | Every record the sender writes, of one frame or of control frames, is within the max_record_size the receiver declared |
| `EndToEnd.FrameFitsPeer` | qmux/conn.go:985-1016 | Every frame on the wire, datagrams included, fits a record of the size the receiver was configured with |
| `EndToEnd.FlushQueue` | qmux/conn.go:261-317 | What takeControl takes can be encoded, and is written in records of at most 16382 bytes whose frames are what was taken, in order |
| `EndToEnd.ResultsAreFrames` | qmux/conn.go:336-367 | The read loop over delivered records does what handling their frames one by one does |
| `EndToEnd.RecordNeverAccused` | qmux/conn.go:527-544 | Whatever stretch of the sender's frames a record holds, with whatever padding between them, the receiver's parser and handlers find no violation in its bytes |
| `EndToEnd.FramesNeverAccused` | qmux/conn.go:546-802 | Any number of frames, handled one after the other as they were written, are accepted up to the sender's own close |
| `PairTheorems.NoCreditStall` | qmux/conn.go:742-750 | When nothing is queued, due or in flight and the receiver has read everything, the sender knows of at least half a connection window of credit; with windows of at least two it has some |
| `PairTheorems.NoStreamStall` | qmux/stream.go:211-220 | The same for each open stream whose reader has not given up: at least half a stream window |
| `PairTheorems.AlwaysCredit` | qmux/stream.go:269-293 | Both together: trySend reports credit |
| `Stalls.OneByteWindow` | qmux/conn.go:742-750 | The bound of two is exact for the connection: with a connection window of one, no run ever extends the limit, so the peer never sends a second byte |
| `Stalls.OneByteStream` | qmux/stream.go:211-220 | And for streams: with a stream window of one, no run extends the limit of any stream, and none carries a second byte |
| `PairTheorems.OneRaiseOutstanding` | qmux/stream.go:211-220 | Between honest endpoints at most one MAX_STREAM_DATA per stream is queued or in flight |
| `PairTheorems.NoTwins` | qmux/stream.go:211-238 | No two MAX_STREAM_DATA, RESET_STREAM or STOP_SENDING about one stream are queued or in flight at once |
| `PairTheorems.QueueBounded` | qmux/conn.go:319-323 | So the control queue holds at most three frames for each stream |
| `Limits.RunPlace` | qmux/stream.go:211-220 | Over any run that does not read a stream, neither its limit nor its reader's place moves, whatever the peer and the application do |
| `Peeking.PeekBounded` | qmux/stream.go:186-207 | Over any run that does not read the stream, Peek is given no more than the stream's limit less what was read, and no more than a connection window |
| `Peeking.PeekFilledByFrames` | qmux/stream.go:186-207 | Up to half a connection window, whatever the stream's limit admits can be given to Peek by frames of the peer alone |
| `Peeking.PeekExact` | qmux/stream.go:169-207 | So a waiting Peek of up to half a connection window can still be satisfied, by some run that does not read the stream, if and only if it is within the stream's limit as it stands |
| `Peeking.HalfWindowPeeks` | qmux/stream.go:169-207 | Half a stream window can always still be peeked, if the connection window is no smaller than the stream's |
| `Peeking.PeekWholeWindow` | qmux/stream.go:169-184 | A Peek of a whole window can still be satisfied only if nothing was read since the stream limit last grew; and exactly then, if the connection window holds two of them |
| `Peeking.WholeWindowPeekStalls` | qmux/stream.go:169-184 | Peek accepts a whole window, but in every configuration that admits a stream and has a stream window of at least two there is a run after which no run fills such a Peek without reading the stream |
| `Pairs.PairReachableInv` | qmux/conn.go:96-101 | The invariant of the pair holds in every state that any interleaving of both endpoints, both write locks and both channels reaches |
| `Pairs.MovedInv` | qmux/conn.go:527-602 | Every step of either endpoint and every delivery keeps the invariant of the pair |
| `Nodes.DoInv` | qmux/conn.go:217-317 | Every step of an endpoint with its write lock, write loop and closing, against any peer, keeps its invariant |
| `Nodes.NodeReachableInv` | qmux/conn.go:154-228 | The invariant of an endpoint with its transport holds in every state that any interleaving reaches |
| `Nodes.WireInOrder` | qmux/stream.go:309-415 | Under all interleavings, a stream's data on the wire is contiguous from offset 0, a final size is all the data before it, and no data or end of that stream follows its end |
| `Nodes.FirstAndLast` | qmux/conn.go:440-493 | The first frame on the wire is QX_TRANSPORT_PARAMETERS and only the first; CONNECTION_CLOSE appears at most once and nothing from any writer follows it |
| `Nodes.WithinCredit` | qmux/stream.go:269-321 | Whatever the peer does, data on the wire stays within the peer's connection limit and within its limit for each stream |
| `Nodes.WorkNotForgotten` | qmux/conn.go:217-228 | Control work on an open connection implies a wake token or a write loop about to flush, and the write loop is alive |
| `Speaking.TakeControlSpeaks` | qmux/conn.go:284-317 | Emptying the queue says exactly the limits in force: what was granted in frames then agrees with the state |
| `Speaking.HandleFrameSpeaks` | qmux/conn.go:546-592 | Handling any frame keeps what was said in agreement with what happened, because each change that must be announced is queued |
| `Runs.ReachableInv` | qmux/conn.go:546-905 | One endpoint, any peer and any application: the invariant holds after any sequence of critical sections |
| `Runs.RunKeeps` | qmux/conn.go:546-905 | Over any run limits only rise, ended directions stay as they ended, data is only appended, and an open signal still means what it meant |
| `EndpointInvariants.HandleFrameInv` | qmux/conn.go:546-802 | Every frame a peer may send, in order or not, keeps the endpoint's invariant |
| `EndpointInvariants.CompleteInv` | qmux/conn.go:826-843 | Completing a stream restores the invariant: it is forgotten exactly when it is held by the application and both directions have ended |
| `Runs.Conservation` | qmux/conn.go:666-750 | received = consumed + unread bytes of all streams, consumed <= received <= recvMax <= consumed + window; unread data is at most one window |
| `Runs.StreamConservation` | qmux/stream.go:143-238 | The same per stream with readOffset and recvOffset; unread data is what was received and not read |
| `Runs.GrantAhead` | qmux/stream.go:211-220 | A live stream's grant always reaches half a window beyond what was read, and the connection's half a window beyond what was consumed |
| `Runs.SlotsConserved` | qmux/conn.go:826-843 | in.max = configured limit + completed peer streams; live peer streams = in.next - completed, at most the limit; the accept queue is exactly the unaccepted ones in increasing order |
| `Runs.AcceptedOnce` | qmux/conn.go:889-905 | A peer's stream is accepted at most once, later accepts return higher numbers, and a completed stream stays completed |
| `Runs.LookupExact` | qmux/conn.go:629-664 | Looking up a stream yields nothing exactly for streams that were opened and have completed; otherwise the live stream of that name, with the direction the frame is about |
| `Runs.NothingBeforeParameters` | qmux/conn.go:546-555 | Before the peer's parameters are in, no stream exists and no credit to send or open; the handshake channel is closed exactly if they are in or the connection has ended |
| `Runs.FinalSizeFixed` | qmux/conn.go:666-730 | Once a FIN or RESET_STREAM was accepted, the stream's size and data never change, over any run |
| `Runs.FinalSizeCounts` | qmux/conn.go:666-730 | No frame for such a stream adds to what the connection received |
| `Runs.ReaderNotForgotten` | qmux/stream.go:129-167 | A reader whose captured channel is still open after any run would be told to wait again |
| `Runs.PeekerNotForgotten` | qmux/stream.go:169-207 | The same for Peek: fewer than the requested bytes are there |
| `Runs.WriterNotForgotten` | qmux/stream.go:279-305 | The same for a writer, which waits on two channels |
| `Runs.OpenerNotForgotten` | qmux/conn.go:847-887 | The same for opening a stream |
| `Runs.AccepterNotForgotten` | qmux/conn.go:889-921 | The same for accepting a stream |
| `Answers.ReadAnswers` | qmux/stream.go:143-167 | tryRead fails, gives data, reports EOF or blocks exactly when it should: EOF if and only if the stream ended and all of it was read; data is the next min(n, unread) bytes received |
| `Answers.PeekAnswers` | qmux/stream.go:189-207 | tryPeek gives the next n bytes exactly if that many are there, and at the end of the stream all that is left |
| `Answers.ReadEffects` | qmux/stream.go:211-220 | A read moves the reader's place and the connection's consumption by what it returned; the stream's limit is extended to a window ahead, and announced, exactly if less than half a window was left and the stream has not ended |
| `Answers.CancelReadExact` | qmux/stream.go:222-238 | Abandoning a stream acts exactly if there is something to abandon; the code is the application's, in the error and in the STOP_SENDING |
| `Answers.SendAnswers` | qmux/stream.go:279-293 | trySend fails exactly if the stream cannot send, and is ready exactly if both credits have something left |
| `Answers.ReserveExact` | qmux/stream.go:309-321 | reserve takes min(len(p), 16357, stream credit, connection credit) bytes, the first ones of p; they are what the log gains and what the frame carries at the old offset; a ready stream takes some |
| `Answers.FinishExact` | qmux/stream.go:357-387 | Closing sends an empty FIN at the end of all that was sent, exactly if the stream can send |
| `Answers.CancelWriteExact` | qmux/stream.go:389-415 | Resetting sends the application's code and all that was sent as the final size, exactly if the stream can send |
| `Answers.OpenAnswers` | qmux/conn.go:847-861 | Opening fails exactly on a closed connection and opens the next stream exactly below the peer's limit, with the send limit the peer declared for its kind: three different parameters, each for its own kind |
| `Answers.PeerOpens` | qmux/conn.go:650-663 | Streams a frame brings into being are the peer's, up to the one named, with the window and the peer's own limit |
| `Answers.AcceptAnswers` | qmux/conn.go:889-905 | Accepting gives the lowest-numbered stream of the kind that was not accepted, and waits exactly if there is none |
| `FrameAnswers.StreamFrameAnswers` | qmux/conn.go:666-697 | A STREAM frame for a live stream is 0x0a exactly if out of order, 0x06 exactly if it goes on after the end, 0x03 exactly if beyond either limit, and fine otherwise |
| `FrameAnswers.StreamFrameEffects` | qmux/conn.go:684-696 | Data that is no violation joins what was received at its end, and counts once against the connection |
| `FrameAnswers.ResetFrameAnswers` | qmux/conn.go:699-718 | A RESET_STREAM is 0x06 exactly if it contradicts the size known, 0x03 exactly if beyond either limit, and fine otherwise |
| `FrameAnswers.ResetFrameEffects` | qmux/conn.go:719-730 | A reset fixes the size, drops what is unread, counts what never came, and gives the reader the peer's code unless it has an error already |
| `FrameAnswers.StopSendingEffects` | qmux/stream.go:398-415 | STOP_SENDING resets a stream that still sends, with the peer's code and all that was sent as the final size |
| `FrameAnswers.LookupAnswers` | qmux/conn.go:623-664 | A frame about a stream is 0x05 exactly for a direction that does not exist or a stream this end has not opened, and 0x04 exactly for one beyond the limit granted |
| `FrameAnswers.LimitFrameEffects` | qmux/conn.go:574-587 | MAX_DATA and MAX_STREAMS raise exactly the limit they name, never lower it and are never a violation |
| `FrameAnswers.ParameterAnswers` | qmux/conn.go:546-621 | The parameters are the first frame and only the first, anything else there is 0x0a; what they declare is what this end may send and open |
| `FrameAnswers.PingAnswers` | qmux/conn.go:752-773 | A request is 0x0a exactly if it does not go up, and is answered with its number; a response is 0x0a exactly if no such request was sent |
| `FrameAnswers.PingGoesOut` | qmux/conn.go:300-317 | A ping that was asked for goes out with the next flush under a number of its own |
| `FrameAnswers.DatagramAnswers` | qmux/conn.go:790-802 | A DATAGRAM is 0x0a exactly if its type byte and data exceed the size declared |
| `FrameAnswers.CloseAnswers` | qmux/conn.go:592-596 | On a connection that is ready, the outcome is the peer's close if and only if the frame is a CONNECTION_CLOSE |
| `FrameAnswers.CloseStops` | qmux/conn.go:527-544 | Frames after the peer's close change nothing, and the peer's close is the outcome |
| `FrameAnswers.ViolationStops` | qmux/conn.go:527-544 | Frames after a violation change nothing, and its code is the outcome |
| `StreamIds.RolesAgree` | qmux/conn.go:804-824 | An endpoint's numbering is invertible and both roles agree on who opened each stream |
| `StreamIds.SplitRaw` | qmux/conn.go:804-824 | Stream identifiers and their parts correspond one to one |
| `Conns.Stream.constructor` | qmux/stream.go:56-82 | A new stream's fields stand for a new stream's state |
| `Conns.Stream.Buffer` | qmux/stream.go:84-94 | The stream's buffer makes the step that ReadBuffer.Append makes in its array, and stays a first-in first-out queue within two windows |
| `Conns.Stream.SetPriority` | qmux/stream.go:323-328 | The urgency is clipped to 0 through 7, so that it never reaches that of control frames |
| `Conns.Stream.Unbuffer` | qmux/stream.go:153-161 | Reading takes the front of that queue; the offset stays zero or below the length |
| `Conns.Stream.Receive` | qmux/conn.go:684-694 | Accepting data and end in the fields is accepting them in the state |
| `Conns.Stream.TakeReset` | qmux/conn.go:719-726 | Resetting the receiving side in the fields is resetting it in the state |
| `Conns.Stream.Advance` | qmux/stream.go:211-220 | Accounting for read data, with the limit extended once half the window is used; the unsigned subtraction does not underflow |
| `Conns.Stream.Take` | qmux/stream.go:153-161 | Reading from the fields is reading from the state |
| `Conns.Stream.Forget` | qmux/conn.go:834-836 | Dropping the buffer of a completed stream leaves offset and length equal, without touching the offset |
| `Conns.Stream.StopReading` | qmux/stream.go:229-236 | Cancelling reading in the fields is cancelling it in the state |
| `Conns.Conn.constructor` | qmux/conn.go:154-172 | A new connection stands for the initial state and meets the invariant |
| `Conns.Conn.QueueLocked` | qmux/conn.go:319-330 | A queued frame comes with a wake token |
| `Conns.Conn.ConsumeLocked` | qmux/conn.go:740-750 | Consumption in the fields is consumption in the state; the unsigned subtraction does not underflow |
| `Conns.Conn.CompleteLocked` | qmux/conn.go:826-843 | The stream leaves the table exactly when the state forgets it, and its slot is freed |
| `Conns.Conn.NewStreamLocked` | qmux/stream.go:54-82 | The new stream enters the table and the state alike |
| `Conns.Conn.StreamLocked` | qmux/conn.go:623-664 | The lookup loop finds, creates and refuses exactly as the state's lookup; a null stream without error is one that has closed |
| `Conns.Conn.HandleStreamLocked` | qmux/conn.go:666-697 | Step by step the fields end up at the state's handling of a STREAM frame, with the same error code |
| `Conns.Conn.HandleResetLocked` | qmux/conn.go:699-730 | The same for RESET_STREAM; the skipped size does not underflow |
| `Conns.Conn.ResetSendLocked` | qmux/stream.go:405-415 | The same for ending the sending side with a reset |
| `Conns.Conn.HandleStopSendingLocked` | qmux/conn.go:561-566 | The same for STOP_SENDING |
| `Conns.Conn.HandleMaxStreamDataLocked` | qmux/conn.go:567-573 | The same for MAX_STREAM_DATA |
| `Conns.Conn.CloseHandshake` | qmux/conn.go:440-451 | Closing the handshake channel requires that it is open, which every caller proves: it is closed at most once |
| `Conns.Conn.HandleParametersLocked` | qmux/conn.go:603-621 | The same for the peer's transport parameters |
| `Conns.Conn.HandleConnFrameLocked` | qmux/conn.go:574-602 | The same for the frames about the connection as a whole; the outcome is the peer's close exactly for CONNECTION_CLOSE |
| `Conns.Conn.HandleFrameLocked` | qmux/conn.go:546-602 | The same for every frame, with the rule that parameters are the first frame and only the first; the outcome is the peer's close exactly for CONNECTION_CLOSE once they are in |
| `Conns.Conn.HandleRecord` | qmux/conn.go:527-544 | The loop over a record's bytes ends at the state's handling of those bytes, with the same outcome |
| `Conns.Conn.TryOpen` | qmux/conn.go:845-861 | Opening a stream, refusal and waiting are the state's |
| `Conns.Conn.TryAccept` | qmux/conn.go:887-905 | Accepting a stream, with the completion it may bring, is the state's |
| `Conns.Conn.TryRead` | qmux/stream.go:141-167 | Reading, EOF, errors and waiting are the state's: it fails exactly on a closed connection or a failed stream, gives the front of what is unread exactly if there is any, and EOF exactly if there is none and the stream ended |
| `Conns.Conn.TryPeek` | qmux/stream.go:186-207 | Peeking is the state's and consumes nothing |
| `Conns.Conn.CancelRead` | qmux/stream.go:222-238 | Abandoning reading is the state's: buffered data is consumed and STOP_SENDING queued unless the stream has ended |
| `Conns.Conn.CancelWrite` | qmux/stream.go:389-396 | Resetting the sending side is the state's, and does nothing on a closed connection |
| `Conns.Conn.TrySend` | qmux/stream.go:277-293 | Reporting credit, failure or the two channels to wait for is the state's |
| `Conns.Conn.Reserve` | qmux/stream.go:307-321 | Taking credit is the state's, and gives the frame to write; ReserveExact says what both are |
| `Conns.Conn.Finish` | qmux/stream.go:354-372 | Ending the sending side is the state's, and gives the frame to write |
| `Conns.Conn.SendDatagram` | qmux/conn.go:985-1016 | Refusals, the payload size named and the decision to send are the state's |
| `Conns.Conn.RequestPing` | qmux/conn.go:411-420 | Asking for a ping sets the flag and wakes the write loop |
| `Conns.Conn.TakeControl` | qmux/conn.go:282-317 | Emptying the queue is the state's, frame by frame in the same order, and nothing once closed |
| `Conns.Conn.HushStreams` | qmux/conn.go:456-459 | The loop over the table wakes every stream that is not forgotten |
| `Conns.Conn.Terminate` | qmux/conn.go:438-462 | Ending the connection is the state's, happens once, and says whether this call did it |
| `ReadBuffers.ReadBuffer.MoveDown` | qmux/stream.go:88-92 | The overlapping copy inside one array leaves exactly the unread bytes, at its front |
| `ReadBuffers.ReadBuffer.Append` | qmux/stream.go:84-94 | Appending to the array, lazily compacted and grown, appends to a first-in first-out queue |
| `ReadBuffers.ReadBuffer.TakeOut` | qmux/stream.go:153-161 | Taking out gives the front of that queue and leaves the rest; a buffer read to its end starts over |
| `ReadBuffers.BuffersQueue` | qmux/stream.go:84-94 | Whenever the buffer is compacted and however it grows, its unread part gains exactly the new data, and its offset stays zero or below its length |
| `ReadBuffers.BuffersBound` | qmux/stream.go:84-94 | Under any growth up to twice the capacity, data within the window takes at most two windows |
| `Conns.BufferBounded` | qmux/stream.go:84-101 | In every valid state the buffer offset is 0 or below the length, unread data fits the window and the capacity is at most two windows |
| `Handling.RecordIsFrames` | qmux/conn.go:527-544 | Handling any byte string is handling the frames it parses into, then reporting its fault |
| `Handling.PaddingImmaterial` | qmux/conn.go:527-544 | However frames are padded inside a record, handling the record is handling the frames |
| `Handling.SplitImmaterial` | qmux/conn.go:261-280 | How frames are split into records makes no difference to what they do |
| `Varints.RoundTrip` | qmux/internal/wire/frame.go:269-280 | Decoding takes back every integer below 2^62, whatever follows it (section 16 of RFC 9000) |
| `Varints.DecodeBound` | qmux/internal/wire/frame.go:269-280 | Every decoded integer is below 2^62 |
| `Varints.Shortest` | qmux/internal/wire/params.go:113-117 | The encoding chosen is the shortest of the four |
| `Formats.DecodeFormat` | qmux/internal/wire/frame.go:269-280 | The big-endian format of section 16 of RFC 9000, byte by byte: two bits of length, then 6, 14, 30 or 62 bits of value |
| `Formats.OnlyEncoding` | qmux/internal/wire/frame.go:269-280 | Bytes that hold an integer in its shortest length are its encoding; there is no other |
| `Formats.Samples` | qmux/internal/wire/frame.go:269-280 | The examples of appendix A.1 of RFC 9000 |
| `Formats.IdFormat` | qmux/conn.go:804-824 | Stream identifiers are 4i, 4i+1, 4i+2 and 4i+3 for the four kinds, and each role numbers its own and its peer's streams so |
| `Formats.ResetFormat` | qmux/internal/wire/frame.go:101-106 | RESET_STREAM is 0x04, stream, code, final size: these bytes are written, and these bytes parse into it whatever follows |
| `Formats.StreamPairFormat` | qmux/internal/wire/frame.go:115-170 | The same for STOP_SENDING, 0x05, and MAX_STREAM_DATA, 0x11 |
| `Formats.LimitFormat` | qmux/internal/wire/frame.go:155-186 | The same for MAX_DATA, 0x10, and MAX_STREAMS, 0x12 and 0x13; a count above 2^60 is fault 0x07 |
| `Formats.BlockedFormat` | qmux/internal/wire/frame.go:342-352 | 0x14 to 0x17 parse into a frame that says nothing; a count above 2^60 is fault 0x07 |
| `Formats.StreamFormat` | qmux/internal/wire/frame.go:132-147 | STREAM is 0x08 with 0x04 for an offset, 0x02 for a length and 0x01 for the end; all eight forms parse, and those with a length, and an offset unless it is zero, are written |
| `Formats.CloseFormat` | qmux/internal/wire/frame.go:202-213 | CONNECTION_CLOSE is 0x1c with a frame type and 0x1d without |
| `Formats.DatagramFormat` | qmux/internal/wire/frame.go:222-226 | DATAGRAM is written as 0x31 with its length; 0x30 reaches to the end of the record |
| `Formats.PingFormat` | qmux/internal/wire/frame.go:241-247 | QX_PING, byte by byte, for requests and responses |
| `Formats.ParametersFormat` | qmux/internal/wire/frame.go:255-260 | QX_TRANSPORT_PARAMETERS, byte by byte: type, length, parameters |
| `Formats.UnknownType` | qmux/internal/wire/frame.go:372-377 | Any type but the 25 there are is fault 0x07, in whatever length it is written |
| `Formats.PaddingFormat` | qmux/internal/wire/frame.go:306-315 | Zero bytes in front are skipped, and nothing but zero bytes is no frame |
| `Formats.CutShort` | qmux/internal/wire/frame.go:301-382 | No frame that is sent can be cut short unnoticed: every proper part of its encoding is fault 0x07 |
| `ParamFormats.ParameterFormat` | qmux/internal/wire/params.go:98-119 | The parameters are written as identifier, length and integer, in this order and with these identifiers: 0x01, 0x04 to 0x09, 0x20 and 0x0571c59429cd0845; a zero one is not |
| `ParamFormats.ParametersExactly` | qmux/internal/wire/params.go:125-162 | A list of parameters is accepted as p if and only if no identifier is repeated or among the ten prohibited, every known one holds an integer, the nine fields of p are what the list says or its absence stands for, no stream count is above 2^60 and the record size not below 16382 |
| `Framing.RecordFormat` | qmux/transport.go:93-98 | The Size field of a record is one byte below 64, and two with 0x40 in the first up to the default size |
| `ParamCodec.FieldLaws` | qmux/internal/wire/params.go:72-96 | Each identifier stores its own field, and the fields are all there is |
| `ParamCodec.OrderFree` | qmux/internal/wire/params.go:125-162 | Permuting distinct parameters, known or not, never changes the parsed result |
| `ParamCodec.ParamsRoundTrip` | qmux/internal/wire/params.go:98-162 | Parsing what was sent gives the same parameters, with a zero max_record_size as 16382, or refuses them for the stream limits and record size alone |
| `FrameCodec.Parse` | qmux/internal/wire/frame.go:301-382 | Every frame returned makes the remainder strictly shorter |
| `FrameCodec.FrameRoundTrip` | qmux/internal/wire/frame.go:93-260 | Parsing the encoding of any encodable frame gives the frame back and leaves exactly what followed |
| `FrameCodec.RecordRoundTrip` | qmux/internal/wire/frame.go:301-382 | Any list of encodable frames with any padding around each parses into exactly those frames, in order |
| `FrameReader.Reader.Varint` | qmux/internal/wire/frame.go:269-280 | The sticky reader reads what the strict one does, or fails; after a failure it returns zero and changes nothing |
| `FrameReader.Reader.Bytes` | qmux/internal/wire/frame.go:282-290 | The same for a counted byte string |
| `FrameReader.Reader.Rest` | qmux/internal/wire/frame.go:292-299 | The same for all that is left |
| `FrameReader.ParseParameters` | qmux/internal/wire/params.go:125-162 | On every byte string the loop agrees with the grammar that stops at the first short read, and it terminates |
| `FrameReader.AppendParameters` | qmux/internal/wire/params.go:98-119 | The loop writes exactly the non-zero parameters, in order |
| `FrameReader.ParseBody` | qmux/internal/wire/frame.go:316-377 | For every type and every byte string, the sticky reader ends with the grammar's frame, its error code, or failed where the grammar stops short |
| `FrameReader.ParseFrame` | qmux/internal/wire/frame.go:301-382 | On every byte string, the same frame and rest or the same error code as the grammar |
| `Records.ControlFits` | qmux/conn.go:21-23 | Every frame that goes through the control queue takes at most 32 bytes |
| `Records.StreamFits` | qmux/stream.go:14-16 | A STREAM frame with as much data as reserve ever takes fits a record of 16382 bytes |
| `Records.CloseFits` | qmux/conn.go:27-29 | A CONNECTION_CLOSE with a reason cut to the maximum fits a record of 16382 bytes |
| `Records.ParamsFit` | qmux/conn.go:187-214 | The transport parameters always fit a record of 16382 bytes |
| `Records.DatagramSize` | qmux/internal/wire/frame.go:228-231 | Len is the exact size of the encoded DATAGRAM frame |
| `Records.MaxStreamsExact` | qmux/internal/wire/frame.go:336-341 | A MAX_STREAMS frame is accepted if and only if its limit is at most 2^60 |
| `Records.FlushControl` | qmux/conn.go:261-280 | Any queue is written in non-empty records of at most 16382 bytes, and the peer parses exactly the queued frames in order, or a beginning of them if the transport fails |
| `Wire.LogEncodes` | qmux/conn.go:231-259 | Whatever an endpoint sends in any run has an encoding that fits a record the peer takes, as long as limits stay below 2^62, stream counts at most 2^60 and error codes below 2^62 |
| `Wire.WireRoundTrip` | qmux/conn.go:231-280 | However the frames on the wire are grouped into records, the peer's parser gives the same frames back |
| `Wire.TakenFit` | qmux/conn.go:282-317 | What takeControl takes are control frames, and each has an encoding |
| `Wire.NoRoomToGrow` | qmux/conn.go:837-842 | The peer refuses the grant of freed slots if and only if more streams have completed than the configured limit is below 2^60; a limit of exactly 2^60 has room for none |
| `Wire.GrantRefused` | qmux/conn.go:837-842 | A run that shows it: with a configured limit of exactly 2^60, one empty stream is opened and accepted, and the grant that follows is refused |
| `Datagrams.SentExactly` | qmux/conn.go:985-1007 | A datagram goes out exactly if SendDatagram answers that it was sent |
| `Datagrams.GoesOutExactly` | qmux/conn.go:985-1016 | A datagram goes out exactly if the connection is open and its encoded frame is within both the datagram size and the record size the peer declared |
| `Datagrams.HintUnderflows` | qmux/conn.go:991-995 | The payload size named for a datagram that is too large wraps below zero if and only if the peer's limit is one, where no datagram fits |
| `Datagrams.HintAccepted` | qmux/conn.go:991-995 | Above that, every payload up to the named size is accepted |
| `Datagrams.HintLargest` | qmux/conn.go:991-995 | The named size is the largest accepted one if and only if the length of one byte more takes as many bytes as the limit does |
| `WriteLocks.WaiterHeap.Push` | qmux/write_lock.go:53 | Pushing keeps the heap and adds exactly the waiter |
| `WriteLocks.WaiterHeap.Pop` | qmux/write_lock.go:55-61 | Popping takes a waiter that no other goes ahead of, by the four rules spelled out: lower urgency, at one urgency the one that is not incremental, of those the lower stream, of incremental ones the earlier; it keeps the heap and all others |
| `WriteLocks.WriteLock.constructor` | qmux/write_lock.go:63-72 | A new lock is free |
| `WriteLocks.WriteLock.Acquire` | qmux/write_lock.go:87-103 | Takes a free lock at once; otherwise queues with the stream number or the next arrival number |
| `WriteLocks.WriteLock.Lock` | qmux/write_lock.go:74-77 | The control writer waits at urgency -1 |
| `WriteLocks.WriteLock.Unlock` | qmux/write_lock.go:105-114 | Hands the lock to a waiter that goes first by those rules, closing that waiter's channel and no other, or frees it |
| `WriteLocks.OneOwner` | qmux/write_lock.go:63-72 | Over any run the lock was granted once more than released exactly if it is held; it is held whenever anyone waits; no waiter is lost |
| `WriteLocks.NotOvertaken` | qmux/write_lock.go:42-51 | While a waiter waits, nobody gets the lock without waiting and it goes only to writers that do not rank after it; a later arrival passes an incremental waiter only by being more urgent, or of its urgency and not incremental |
| `WriteLocks.LessMeans` | qmux/write_lock.go:42-51 | Less is the order of the four rules, spelled out without it |
| `WriteLocks.ServedInOrder` | qmux/write_lock.go:36-61 | While a waiter waits, over any run, the lock goes only to writers of a lower urgency number; at its own urgency, if it is incremental, to ones that are not or that came before it; if it is not, to ones that are not, on a stream of no higher number |
| `WriteLocks.ControlFirst` | qmux/write_lock.go:74-77 | While a control writer waits, no stream gets the lock |
| `WriteLocks.TurnsInOrder` | qmux/write_lock.go:96-102 | Incremental writers of one urgency are served strictly in the order of arrival |
| `WriteLocks.TiesExactly` | qmux/write_lock.go:28-34 | Two waiters rank alike if and only if they write to one stream that is not incremental, at one urgency |
| `Framing.MessageReader.Read` | qmux/adapter.go:37-48 | Messages read as a byte stream lose, repeat and reorder nothing; an empty read means an empty buffer or the end |
| `Framing.StreamTransport.ReadRecord` | qmux/transport.go:67-91 | Whatever the messages and pieces, the next record on the wire is returned, one over the limit is skipped and reported, and the stream stays aligned |
| `Framing.StreamTransport.ReadToEnd` | qmux/transport.go:67-91 | The read loop gets exactly the records on the wire, in order, and terminates |
| `Framing.WriteRecord` | qmux/transport.go:93-98 | The Size field goes into the headroom in place, right before frames that stay as they are, and what is written is the framed record |
| `Framing.FramingRoundTrip` | qmux/transport.go:67-98 | Every sequence of records written is read back: those within the limit in order, each one over it reported once |
| `Framing.CutShort` | qmux/transport.go:82-90 | A transport that ends anywhere delivers a beginning of what was sent and nothing else |
| `Framing.MessageTransport.ReadRecord` | qmux/transport.go:129-138 | One message is one record, or is reported if over the limit |
| `Framing.MessageRoundTrip` | qmux/transport.go:129-145 | Records written to a message transport are read by the peer as they were, in order, and each one over the limit is reported once |
| `Framing.MessageTransport.ReadToEnd` | qmux/transport.go:129-138 | Records in messages deliver what the same records on a byte stream deliver |

## Left out

- Timers, deadlines, the idle and keep-alive loops and RTT smoothing: driven by the clock. A timeout is a step that closes the connection, possible at any time.
- Sockets, TLS state, addresses, half-closing and the forced close: a transport takes a write or fails for good.
- Contexts, error texts, statistics and the datagram channel, which may drop: only error codes and whether the connection is open are kept.
- Filling in the defaults of a configuration: the bounds it guarantees are the predicate ValidConfig, and most theorems need none of them.
- The exported stream types and the blocking loops around tryRead, tryPeek, trySend, tryOpen and tryAccept: a waiter is the channel it captured; that it is woken in time is proved. Of the loops only the one that writes is modelled, up to the point where it would wait.
- Machine integers: counters are unbounded naturals. That no unsigned subtraction of flow control and of the receive path goes below zero is proved, and where the one of SendDatagram does is stated; that no sum passes 2^64 is not, except as far as the bounds of Wire imply it.
- Memory: a stream that completed stays in the state as history (its `done` flag says that the connection has forgotten it), and so does all data ever received and sent. The Conn class drops it from its table, as the source does.
- Grouping of fields: the Conn and Stream classes keep related fields in one record each, and the methods of a stream take the connection's window as a parameter, where the source reaches it through the connection.
- The waiter heap is a sequence, not an array. The read buffer is an array in ReadBuffer; a Stream keeps the same buffer as a sequence with a capacity, and Stream.Buffer is proved to make the same step.
- Delivery between two endpoints is frame by frame; RecordIsFrames, PaddingImmaterial and SplitImmaterial say why records make no difference.
- Dropping the connection after a violation or the peer's close is a step of its own, so that an endpoint may handle more frames in between than the source would.
- Conns.Conn.HandleParametersLocked: does not model the negotiated idle timeout, which only the timers use.
- Conns.Conn.HandleConnFrameLocked: does not model the channel that delivers datagrams, nor whether the latest ping was answered, which only the timers use.
- Conns.Conn.TrySend: does not model the write deadline.
- Conns.Conn.RequestPing: does not model the refusal after unanswered pings, which depends on the clock.
- Peeking.PeekExact: for a Peek above half a connection window, what the other streams hold and may still carry decides whether it can be satisfied; only the bound of PeekBounded is stated there.
- Framing.StreamTransport.ReadRecord: does not tell the end of the transport between records from one inside a record, since the connection treats them alike.
- WriteLocks.WriteLock.Acquire: a waiter's channel is a number, and waiting for it is left to the caller.
