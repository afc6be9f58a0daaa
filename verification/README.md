# Yamux protocol engine

A Dafny model of the Yamux multiplexer: its chunked byte queues, the header and frame codec, the
buffering transport, the per-stream state machine with credit-based flow control, and the session
that multiplexes streams over one connection. `dafny verify dfyconfig.toml` checks everything.

The model has two layers.

* **Objects**, one class per class of the program, with its fields and loops: `ChunkView`,
  `ChunkOwned`, `ChainedChunkBufferWriter`, `ChainedChunkBufferReader` (Chunks.dfy), `FrameReader`,
  `FrameWriter` (Framing.dfy), `YamuxTransport` over a byte stream that accepts, blocks and cuts as it
  likes (Transport.dfy), `YamuxStreamHead`, `YamuxStream` and the channels between them (Streams.dfy),
  `YamuxSession` with its map of heads (Sessions.dfy). Every method is proved to do to its object what
  the second layer says. Users.dfy puts handles and session together: each call of a user is one step
  of the session's state, and a poll leaves handles and reading positions to their users.
* **Values**, on which whole runs are reasoned about: the codec (Wire.dfy, Codec.dfy), one end of a
  stream with its history (StreamModel.dfy), a session whose `poll_next` is a sequence of atomic
  labels, with user code free to run between any two of them (SessionModel.dfy), and two sessions
  joined by two byte pipes (TwoEndpoints.dfy).

What connects the layers: each class has a ghost `State()`, and a method's new state is the value
function of the old one. `Sessions.YamuxSession.PollNext` is shown to be a sequence of labels of
`SessionModel`, to move through the byte stream exactly the bytes those labels move, and to return only
handles that are joined to the heads they belong to. `SessionProofs.PerformInv` carries that over to an
endpoint with its history, bytes sent and got included.

The frames two parties exchange are compared as *tokens*: one per header and one per payload byte.
That forgets how payloads were cut into chunks, which every layer is free to change, and nothing
else. Received bytes are specified by `Codec.Scan` and `Codec.Read`, a parser that takes one byte at
a time and so cannot depend on segmentation; it is written independently of `FrameReader`.

The main results, from the bottom up:

1. *Codec.* What goes over the wire and what arbitrary bytes mean is given byte by byte
   (`Wire.EncodedBytes`, `Wire.DecodedBytes`), and which frame sequences `FrameWriter` accepts without
   reference to its state (`Codec.AcceptedExactly`). Whatever `FrameWriter` accepts is read back from
   any segmentation with reads interleaved at will (`Codec.RoundTrip`); on arbitrary bytes two
   segmentations give the same tokens and the same first error at the same offset
   (`Codec.ParseConfluence`), and no byte is lost (`Codec.ParseConserves`).
2. *One head, any peer, any user* (HeadGuarantees.dfy, HeadSteps.dfy). It never overspends, returns
   credit exactly and neither too early nor too late, pairs every data header with one chunk, delivers
   in order and sends at most one FIN. What one poll takes and says is given in closed form
   (`HeadSteps.FillExactly`, `HeadSteps.PollExactly`), and what the user is told over a whole run is a
   function of what the peer sent (`HeadSteps.ToldExactly`). Data can follow that FIN; over every run it
   does so exactly when some poll meets a state described in closed form
   (`HeadGuarantees.QuietExactlyWhen`).
3. *One endpoint, any peer bytes* (EndpointGuarantees.dfy, Dispatching.dfy). Although nothing checks it,
   its output is a sequence `FrameWriter` would accept; heads and reader stay in step so no head ever
   rejects what is dispatched to it; transport memory is bounded; every ping is answered once; a head is
   removed only when everything it had to say, its FIN included, has been queued; which streams there
   are, and what each head is given, is exactly what the frames that came in say.
4. *Two endpoints* (Guarantees.dfy, Ledgers.dfy). Each user reads a prefix of what the other wrote, also
   when both are taken from what the calls returned (`Ledgers.ReturnedIsAcknowledged`); the end of a
   stream is reported only after everything written before it was read; credit is conserved at exactly
   524288 per direction; there is no flow-control stall; ids never collide.
5. *Liveness* (Liveness.dfy, Rest.dfy, Losses.dfy, Witnesses.dfy). Every fair run of two sessions, each
   polled again and again over byte streams that are not asked in vain for ever, comes to states that no
   poll changes any more. Whether everything has arrived then is decided by one thing: it has exactly if
   no bytes are left in a writer's buffer. That can happen, because a poll offers buffered bytes to the
   byte stream only if something is queued at its start, or is queued on its way (`Polls.PollAsksExactly`).
   Bytes that the closing flush of a poll could not hand over, with nothing queued behind them, are not
   offered again by any later poll in which nothing is queued (`Polls.IdlePoll`); a reachable run strands a
   user's bytes for ever in this way (`Witnesses.BytesStranded`). In every fair run whose flushes are
   refused nothing, everything written is delivered (`Rest.FlushedRunsDeliver`), with one exception that is
   characterised exactly: an opener whose user closes before anything has arrived is deaf from then on. A
   reachable run shows that loss too, it is permanent, and at rest a user who did not close that early has
   lost nothing.

The two-endpoint results assume what the environment must provide (`TwoEndpoints.Fair`): reliable
ordered pipes, ids that do not wrap, and no empty user writes. Segmentation, backpressure, buffer
limits, the order in which heads are drained and what users do are unconstrained.

Where code and documentation differ the model follows the code. IMPLEMENT.md:81 says credit is returned
as inbound data is consumed; the code returns it when data is received, whether or not the application
reads (src/stream.rs:144-158). The Yamux specification, section "Opening a stream", lets an opener send
before the ACK. The code does too, but its remote half only opens with the ACK (src/stream.rs:95), which
is where the exception of result 5 comes from. The specification sets the version byte to 0 in every
frame; the code writes 0 and accepts anything (src/packet.rs:219-237). IMPLEMENT.md:88 has polling the
session write and flush; the code flushes at the end of a poll only if that poll has started a frame
(src/session.rs:197), which is where the stranded bytes of result 5 come from.

## Model

| member | source | states |
|---|---|---|
| `Wire.HeaderRoundTrip` | src/packet.rs:210-247 | reading what was written gives the header back, for every header |
| `Wire.HeaderCanonical` | src/packet.rs:146-160 | re-encoding a parsed header gives the same twelve bytes exactly when the twelve undefined flag bits are zero |
| `Wire.FrameRoundTrip` | src/frame.rs:220-262 | every frame other than a chunk is recovered from its header |
| `Wire.EncodedBytes` | src/frame.rs:238-262 | every frame byte by byte: version 0, type codes 0 to 3, SYN, ACK, FIN and RST as 1, 2, 4 and 8, id and length with the most significant byte first, id 0 for ping and go-away |
| `Wire.DecodedBytes` | src/packet.rs:219-237 | what any twelve bytes mean: a type code above 3 is that error; version and undefined flag bits are not looked at |
| `Codec.ScanEncoded` | src/frame.rs:132-162 | the encoding of any frames the writer accepts makes the byte-at-a-time parser yield exactly their tokens and end in the writer's own pending state |
| `Codec.NextFrameScans` | src/frame.rs:50-80 | one call consumes a prefix of the buffered bytes that is exactly what the returned frame stands for; an unknown type costs twelve bytes |
| `Codec.NeedMoreScans` | src/frame.rs:50-80 | when no frame is returned the reader is unchanged and the buffered bytes complete no token and contain no error |
| `Codec.NextFrameShrinks` | src/frame.rs:50-80 | every returned frame uses up bytes, or ends a payload announced as empty |
| `Codec.ParseConserves` | src/frame.rs:41-80 | in any run on arbitrary bytes, those pushed are those the outputs came from, in order, followed by the unread ones |
| `Codec.ParseConfluence` | src/frame.rs:41-80 | two runs on the same bytes, however cut and interleaved, return the same tokens and the same first error at the same offset |
| `Codec.RoundTrip` | src/frame.rs:50-162 | from frames the writer accepts, any segmentation of any prefix gives a prefix of their tokens and no error, and all of them once everything is pushed and read |
| `Codec.AcceptedExactly` | src/frame.rs:132-162 | a sequence is accepted exactly if every chunk belongs to an unfinished payload of its stream and fits into what is left of it, and every other frame finds none unfinished |
| `Codec.LongestChunk` | src/frame.rs:53-66 | within a payload a chunk is as long as the front segment and the rest of the payload allow; none comes only when nothing is buffered |
| `Chunks.ChunkView.View` | src/chunk.rs:166-173 | a narrower view shows that part of the bytes; a range ending behind the view is refused with the offset attempted; one that starts behind its end gives a view nothing can be done with |
| `Chunks.ChunkView.NextU8` | src/chunk.rs:182-189 | takes the first visible byte, if there is one |
| `Chunks.ChunkView.NextChunk` | src/chunk.rs:191-200 | splits off at most the given number of bytes from the front |
| `Chunks.ChunkOwned.ConsumeFront` | src/chunk.rs:242-245 | drops a prefix of the filled bytes |
| `Chunks.ChunkOwned.WriteSlice` | src/chunk.rs:262-265 | appends within the capacity |
| `Chunks.ChunkOwned.IntoView` | src/chunk.rs:141-146 | a view over a block shows what is left of it exactly when none of it had been consumed |
| `Chunks.ChainedChunkBufferWriter.WriteU8` | src/chunk.rs:328-339 | appends one byte to the flat contents, keeping all blocks but the last full and only the front partly consumed |
| `Chunks.ChainedChunkBufferWriter.WriteSlice` | src/chunk.rs:341-366 | appends all bytes to the flat contents across as many blocks as needed, keeping the same shape |
| `Chunks.ChainedChunkBufferWriter.WriteU16` | src/chunk.rs:75-78 | appends the value in network order |
| `Chunks.ChainedChunkBufferWriter.WriteU32` | src/chunk.rs:81-86 | appends the value in network order |
| `Chunks.ChainedChunkBufferWriter.FrontSlice` | src/chunk.rs:293-295 | a nonempty prefix of the contents, absent exactly when there are none |
| `Chunks.ChainedChunkBufferWriter.ConsumeFront` | src/chunk.rs:304-313 | drops a prefix of the contents and leaves no empty front block |
| `Chunks.ChainedChunkBufferWriter.PopFront` | src/chunk.rs:297-302 | removes the front block; the view shows what was left of it exactly when none of it had been consumed |
| `Chunks.ChainedChunkBufferWriter.Sizes` | src/chunk.rs:316-318 | the running length is the length of the contents and no queued block is empty |
| `Chunks.ChainedChunkBufferWriter.BlockCount` | src/chunk.rs:274-367 | with two or more blocks, at most (len - 2) / 4090 + 2 are held |
| `Chunks.ChainedChunkBufferReader.FromWriter` | src/chunk.rs:389-396 | a writer turned reader holds the same bytes exactly when nothing of the front block had been consumed |
| `Chunks.ChainedChunkBufferReader.PushBack` | src/chunk.rs:405-408 | appends any segment; the reader is fit for reading after it exactly if it was before and the segment is not empty |
| `Chunks.ChainedChunkBufferReader.NextU8` | src/chunk.rs:416-424 | takes the first byte of the concatenation; the inner expectation never fails |
| `Chunks.ChainedChunkBufferReader.NextChunk` | src/chunk.rs:426-434 | takes a prefix of the front segment, never empty unless nothing was asked for |
| `Chunks.ChainedChunkBufferReader.NextU16` | src/chunk.rs:36-44 | the next two bytes of the concatenation across any boundary, or nothing taken at all |
| `Chunks.ChainedChunkBufferReader.NextU32` | src/chunk.rs:47-57 | the next four bytes of the concatenation across any boundary, or nothing taken at all |
| `Framing.ReadHeader` | src/packet.rs:219-237 | decodes the first twelve bytes of the concatenation, whatever the segments; fewer leave the buffer alone |
| `Framing.WriteHeader` | src/packet.rs:240-246 | appends the header's twelve bytes |
| `Framing.ReadFrame` | src/frame.rs:220-232 | the frame those twelve bytes announce, or the unknown type |
| `Framing.EncodeFrame` | src/frame.rs:238-262 | appends the frame's encoding; an empty chunk adds nothing |
| `Framing.FrameReader.PushBack` | src/frame.rs:42-45 | one more segment behind the others; the reader stays fit exactly if the segment is not empty |
| `Framing.FrameReader.NextFrame` | src/frame.rs:50-80 | does exactly what the codec's value function does |
| `Framing.FrameWriter.Write` | src/frame.rs:132-162 | accepts exactly what the sequencing rules allow and appends its encoding; each error is returned exactly in its case, and a refused frame changes nothing |
| `Transport.YamuxTransport.PollWrite` | src/transport.rs:49-61 | for any pattern of partial writes and blocking, bytes accepted followed by bytes buffered stay the same and nothing is read; it stops only when none are buffered or the byte stream has refused, once, to take more; the loop ends unless the stream takes nothing for ever |
| `Transport.YamuxTransport.PollReady` | src/transport.rs:67-81 | after such an attempt, ready exactly when everything has gone or less than the limit is buffered |
| `Transport.YamuxTransport.StartSend` | src/transport.rs:83-88 | appends the frame's encoding without any sequencing check |
| `Transport.YamuxTransport.ReadSegment` | src/transport.rs:121-130 | one read of at most 4096 bytes goes behind the unread ones |
| `Transport.YamuxTransport.PollNext` | src/transport.rs:109-147 | parses from what is buffered and reads more only while that yields no frame; it waits only when the byte stream has nothing to read, and is closed only when that is at its end |
| `StreamProofs.InputInv` | src/stream.rs:123-233 | every accepted or rejected input keeps the head's invariant |
| `StreamProofs.PollInv` | src/stream.rs:239-294 | polling keeps the head's invariant |
| `StreamProofs.UserInv` | src/stream.rs:353-391 | writing, closing and dropping the handle keep the head's invariant |
| `StreamProofs.RunInv` | src/stream.rs:86-295 | the invariant holds after every run against any peer and any user |
| `StreamModel.FlagsExactly` | src/stream.rs:176-193 | for every combination of flags in one header: FIN and RST leave the remote half closed even with ACK, ACK alone leaves it open, RST closes the local half with one FIN, and the user gets one end marker exactly if a half open before or opened by this header closes and it is there |
| `StreamModel.RefusedExactly` | src/stream.rs:123-164 | each error of an input is returned exactly in its case |
| `StreamModel.ChunkExactly` | src/stream.rs:137-160 | an accepted chunk counts towards the payload and the credit, which is returned at 126982 bytes, and goes to a user that is there |
| `StreamModel.HeaderExactly` | src/stream.rs:125-171 | an accepted header announces its payload or adds its credit, and otherwise does what its flags do |
| `StreamModel.WriteExactly` | src/stream.rs:354-372 | a write hands over the front of the buffer, at most 4090 bytes, all of it if it fits |
| `HeadSteps.FillExactly` | src/stream.rs:262-285 | one fill takes chunks while each has credit for a full one and stops at the first that has not; each becomes its header and itself; the FIN stands where the first empty chunk was, or at the end |
| `HeadSteps.PollExactly` | src/stream.rs:239-294 | queued events come first; a head has ended exactly with both halves closed and nothing queued; otherwise it speaks exactly if its user left bytes or an unsaid close and there is credit for a full chunk |
| `HeadSteps.RemoteExactly` | src/stream.rs:176-193 | over every run against any peer, the remote half is as the last accepted header with ACK, FIN or RST left it, open only if that was ACK alone |
| `HeadSteps.ToldExactly` | src/stream.rs:137-193 | over every run, the channel of a user that stays holds every chunk, and one end marker for each header that closed the remote half, in order |
| `HeadSteps.UpdatesAreDue` | src/stream.rs:195-208 | no window update behind the first is sent for less than 126982 bytes |
| `HeadGuarantees.NeverOverspends` | src/stream.rs:261-276 | window.send is 262144 plus credit received minus data taken, so the subtraction never saturates; what was taken followed by what waits is what the user wrote |
| `HeadGuarantees.CreditReturned` | src/stream.rs:195-208 | deltas queued after the initial one plus window.recv equal the bytes received; recv stays below 126982 and every delta is at most 131077, so none is truncated |
| `HeadGuarantees.HeadersHaveTheirChunk` | src/stream.rs:271-276 | every Data(n) is followed at once by its chunk of exactly n bytes, 1 to 4090 |
| `HeadGuarantees.DeliversInOrder` | src/stream.rs:137-159 | the user's channel holds a prefix of what the peer sent, all of it while the user is there |
| `HeadGuarantees.FinIsFinal` | src/stream.rs:210-218 | at most one FIN, local closed exactly from then on, never reopened |
| `HeadGuarantees.NoDataAfterFin` | src/stream.rs:176-294 | no data follows the FIN if the user makes no empty write and the peer sends no ACK after a RST |
| `HeadGuarantees.QuietExactlyWhen` | src/stream.rs:239-294 | over every run against any peer and user, no data follows the FIN exactly when no poll finds the output empty, the stream not over, a nonempty chunk waiting behind a close, and credit for the chunks before it and a full one more |
| `HeadGuarantees.StraysIsLoop` | src/stream.rs:262-285 | that condition, stated on the waiting chunks, is what the filling loop comes to |
| `HeadGuarantees.FillStaysQuiet` | src/stream.rs:262-285 | filling the output puts data behind a FIN exactly under that condition |
| `HeadGuarantees.EmptyWriteStrays` | src/stream.rs:266-277 | a run with an empty write in which data follows the FIN |
| `HeadGuarantees.AckAfterRstStrays` | src/stream.rs:176-186 | a run in which an ACK follows a RST before the head is polled again, and data follows the FIN |
| `HeadGuarantees.FinishedExactlyWhen` | src/stream.rs:248-252 | against a conforming peer a head ends exactly when its FIN has been taken and the peer's has arrived, or it is an opener that has received nothing |
| `HeadGuarantees.EarlyCloseFinishes` | src/stream.rs:95-100 | a run in which an opener that closes before the ACK is finished at once |
| `HeadGuarantees.StaysAsPolled` | src/stream.rs:239-294 | a head that has blocked or ended does so again until something happens to it |
| `Streams.YamuxStreamHead.constructor` | src/stream.rs:88-115 | a new head holds the initial window and queues the window update with SYN or ACK |
| `Streams.YamuxStreamHead.OnInput` | src/stream.rs:123-173 | one input takes the head to the specified state; each error is returned exactly in its case and leaves the head as it was |
| `Streams.YamuxStreamHead.HandleFlag` | src/stream.rs:176-192 | flags in any combination: FIN or RST leave the remote half closed whatever ACK says, RST closes the local half with one FIN, and one end marker is sent if the remote half was open or is opened by the same header |
| `Streams.YamuxStreamHead.MarkReceivedBytes` | src/stream.rs:195-208 | counts received bytes and queues all of them as one update near the threshold |
| `Streams.YamuxStreamHead.TryCloseLocal` | src/stream.rs:210-218 | queues one FIN the first time only |
| `Streams.YamuxStreamHead.TryCloseRemote` | src/stream.rs:220-233 | hands the user one end marker the first time only, and forgets a user that is gone |
| `Streams.YamuxStreamHead.FillOuts` | src/stream.rs:262-285 | the gated loop ends in the state of the recursive specification, whatever waits in the channel |
| `Streams.YamuxStreamHead.PollNext` | src/stream.rs:239-294 | queued events first, then the end, then new ones |
| `Streams.YamuxStream.PollRead` | src/stream.rs:317-350 | copies into the buffer exactly the next bytes of the channel that fit, zero for the marker; with nothing in hand or in the channel, an error exactly if the sender is gone |
| `Streams.YamuxStream.PollWrite` | src/stream.rs:354-372 | hands over the first 4090 bytes of the buffer, or all of a shorter one, and reports how many; otherwise changes nothing |
| `Streams.YamuxStream.PollClose` | src/stream.rs:380-384 | closes the user's sending channel and leaves reading alone |
| `Streams.NewPair` | src/stream.rs:393-425 | a head and a handle in their initial states, joined by two fresh channels |
| `SessionProofs.ActInv` | src/session.rs:91-203 | every atomic step of a session and its users keeps the endpoint's invariant |
| `SessionProofs.OpenLockstep` | src/session.rs:65-76 | opening keeps reader and heads in step exactly when the new id is not that of a half-delivered payload |
| `SessionProofs.DispatchAccepted` | src/session.rs:132-157 | in step, a head accepts whatever is parsed for it |
| `SessionProofs.PollFramed` | src/session.rs:170-181 | each event popped moves the checking writer's state along with what the head still owes, and encodes to at most 4090 bytes |
| `SessionProofs.PerformInv` | src/session.rs:91-203 | whatever labels a session performs, its endpoint with history can follow, has sent and got exactly the bytes they move, and keeps its invariant |
| `EndpointGuarantees.OutputIsWellFramed` | src/session.rs:95-195 | frames started followed by frames queued are a sequence the checking writer accepts, with nothing owed between drains; bytes sent followed by bytes buffered are their encoding |
| `EndpointGuarantees.HeadsNeverReject` | src/session.rs:132-157 | in every run on any peer bytes, every head expects exactly what the reader is in the middle of, so no dispatched event is rejected |
| `EndpointGuarantees.BuffersAreBounded` | src/transport.rs:67-88 | the write buffer never exceeds max(limit, 1) - 1 + 4090 bytes, nor the read buffer 11 + 4096 |
| `EndpointGuarantees.HeadsKeepTheirInvariant` | src/session.rs:91-203 | every head a session ever had keeps what heads guarantee |
| `EndpointGuarantees.PingsAreAnswered` | src/session.rs:118-126 | control frames sent are exactly the replies to the pings received, in order and with their values |
| `EndpointGuarantees.RemovedHeadsSaidAll` | src/session.rs:170-185 | over every run against any peer and users, what a removed head ever emitted ends what was queued for its id, with the FIN in it and the remote half closed |
| `EndpointGuarantees.ClashRejects` | src/session.rs:65-76 | a run in which an open takes the id of a half-delivered payload and the head rejects the rest of it, so the proviso of the results above is needed |
| `Dispatching.KnownExactlyWhen` | src/session.rs:65-150 | after any run, a stream is known exactly if its id is one this side has opened or a data or window update frame with SYN came in for it |
| `Dispatching.HeadsHearTheirs` | src/session.rs:132-157 | after any run, a head has received exactly the events parsed for its id from the frame that opened it, or its opening here, up to its removal or now |
| `Dispatching.UsersAreTold` | src/session.rs:132-157 | so a user that stays finds in its channel exactly what the peer's frames for its stream say, end markers included |
| `Dispatching.GoAwayIsTheEnd` | src/session.rs:127-130 | no run goes on behind a GoAway |
| `Sessions.PollBacklog` | src/stream.rs:239-294 | each event emitted strictly decreases 2 * waiting chunks + queued events + 1 if a close is pending |
| `Sessions.HeadMap.Add` | src/session.rs:72-73 | a new head under an id; a head that was there is dropped and its user told |
| `Sessions.HeadMap.Feed` | src/session.rs:133-138 | one head takes an event, any error ignored, and no other changes |
| `Sessions.HeadMap.Remove` | src/session.rs:182-183 | one head leaves the map and both its channels tell its user |
| `Sessions.YamuxSession.constructor` | src/session.rs:47-60 | a new session has no streams and the first id of its side |
| `Sessions.YamuxSession.OpenStream` | src/session.rs:65-76 | one label: a new opener under the next id, and the handle in its initial state joined to it |
| `Sessions.YamuxSession.CheckReady` | src/session.rs:96 | the byte stream is offered what is buffered, which stays there only if it refuses, and the transport is ready exactly if nothing or less than the limit is left |
| `Sessions.YamuxSession.SendLoop` | src/session.rs:95-103 | asks the byte stream before every frame, sends a prefix of the queue and stops only when it is empty or the transport not ready; the byte stream takes exactly what leaves the buffer; reports whether anything went |
| `Sessions.YamuxSession.Flush` | src/session.rs:197-200 | what is buffered is offered once more, and stays only if the byte stream refuses |
| `Sessions.YamuxSession.DispatchFrame` | src/session.rs:117-158 | one frame's effect, no head replaced; a stream is opened exactly by a data or window update frame with SYN for an id without a head, with a valid new handle joined to the new head; a ping with SYN queues its reply and nothing else queues anything |
| `Sessions.YamuxSession.ReadLoop` | src/session.rs:115-168 | frames one after another until none is there, one opens a stream, or none can be taken any more; the segments read are exactly what the byte stream delivered; an accepted handle is new, valid and joined; the loop ends; it ends the session exactly for a GoAway, an unknown type or the end of the byte stream, and otherwise stops without a stream only when there is nothing to read |
| `Sessions.YamuxSession.DrainHead` | src/session.rs:171-181 | all a head has to say goes into the queue before another head is asked; the loop ends; reports whether the head has ended |
| `Sessions.YamuxSession.DrainAll` | src/session.rs:170-181 | the same for every head in any order, after which each has blocked or ended |
| `Sessions.YamuxSession.RemoveAll` | src/session.rs:182-185 | the ended heads leave the map and no others, and their users are told |
| `Sessions.YamuxSession.PollNext` | src/session.rs:91-203 | a poll is a sequence of the model's labels, one call's worth, and moves exactly their bytes; it accepts only with the frame that opens the stream and returns a new handle joined to its head, ends only where no frame can be taken, and otherwise stops only with nothing to parse, every head blocked and nothing queued that the transport was ready for; it offers bytes to the byte stream exactly if something is queued at its start or on its way; with nothing to do and nothing arriving it leaves buffer and byte stream alone; a head is kept, or gone and its user told; it adds a head exactly when it returns a handle; every byte stream answer that blocked it is accounted for |
| `Users.Write` | src/stream.rs:354-372 | a write on a handle is the model's write step of the session's state, or nothing if it would block; it sends the first 4090 bytes or all of a shorter buffer, and breaks exactly when the user has closed |
| `Users.Close` | src/stream.rs:380-384 | closing a handle is the model's closing step |
| `Users.Drop` | src/stream.rs:387-391 | dropping a handle is the model's dropping step |
| `Users.Read` | src/stream.rs:317-350 | a read moves the handle as the model's read over what the session put into its channel, and leaves the session as it was |
| `Users.Poll` | src/session.rs:91-203 | a poll moves no handle, which stays joined to its head or finds both channels closed |
| `Polls.PollAsksExactly` | src/session.rs:95-200 | a whole poll asks the byte stream exactly when something is queued at its start, or is queued on its way and the poll does not end early with a stream |
| `Polls.IdlePoll` | src/session.rs:95-200 | polls of a session with nothing queued, nothing to parse, no head with anything to say and nothing arriving never ask, whatever is in the buffer |
| `StreamIds.ClosedForm` | src/session.rs:65-70 | the n-th id under the step modulo 2^32 that skips zero |
| `StreamIds.IdsAreDistinct` | src/session.rs:65-70 | ids keep their side's parity, are never zero, and coincide exactly when a whole number of periods lies between |
| `StreamIds.NoCollision` | src/session.rs:65-70 | ids grow until the wrap and are never the other side's |
| `TwoEndpoints.Linked` | src/frame.rs:50-80 | what one side has parsed is a prefix of what the other has queued, however the bytes were cut |
| `TwoEndpoints.Peers` | src/session.rs:115-157 | what a head has received is a prefix of what its peer head has emitted |
| `TwoEndpoints.MoveInv` | src/session.rs:65-203 | every move of either side keeps the invariant of the whole system |
| `TwoEndpoints.ReachInv` | src/session.rs:65-203 | the system's invariant holds in every reachable state |
| `Guarantees.UsersReadWhatWasWritten` | src/stream.rs:317-372 | in every reachable state, what a user has read is a prefix of what the other side's user wrote on that stream |
| `Ledgers.ReturnedIsAcknowledged` | src/stream.rs:317-372 | in every reachable state, the bytes that read calls have returned on one side are a prefix of those that write calls have acknowledged on the other |
| `Ledgers.ReadExactly` | src/stream.rs:317-350 | for every handle and channel, which bytes a read returns, and exactly when it waits and when it breaks |
| `Ledgers.ReadsBreakExactly` | src/stream.rs:317-334 | between two sessions, a user that has not left gets an error exactly if its head is gone and all that was delivered is read, and waits exactly if the head lives and all is read |
| `Guarantees.EndOfStreamIsTheEnd` | src/stream.rs:323-327 | a user told of the end has read everything the peer's user wrote, and the peer's user has closed |
| `Guarantees.ReadingNothingIsTheEnd` | src/stream.rs:317-350 | the same from the user's side: a read into a nonempty buffer gives no bytes only then |
| `Guarantees.FlightIsTheRest` | src/session.rs:91-203 | what has arrived followed by what is in flight, in every queue and buffer on the way, is what the head has emitted |
| `Guarantees.CreditIsConserved` | src/stream.rs:165-276 | sender's window, data in flight, receiver's count and credit in flight add up to 524288 in each direction |
| `Guarantees.NoStall` | src/stream.rs:195-264 | with nothing in flight the sender has at least 397307 bytes of credit, so its gate is open |
| `Guarantees.RestMeansDelivered` | src/stream.rs:239-294 | with nothing in flight and the head blocked, all that was written is in the peer's channel, and the end marker if the writer closed |
| `Guarantees.SidesAreRuns` | src/session.rs:37-44 | each side of the two-endpoint system is a run of one endpoint, so what endpoints guarantee against any peer holds in it |
| `Guarantees.RemovedHeadsSaidAll` | src/session.rs:170-185 | between two sessions, a removed head's whole output, its FIN included, is all that was queued for its id |
| `Guarantees.OpensAreFresh` | src/session.rs:65-76 | opening never takes an id either side has ever used |
| `Guarantees.AcceptsAreFresh` | src/session.rs:139-150 | accepting never overwrites a stream, living or removed |
| `Liveness.NextIsStream` | src/session.rs:115-163 | between two sessions of this implementation parsing never fails and no control frame ever arrives |
| `Liveness.OwnMoveWeight` | src/session.rs:91-203 | no step of a session's own adds work for the pair, and every productive one takes some away |
| `Liveness.WorkRunsOut` | src/session.rs:91-203 | however two sessions' steps are interleaved, the productive ones are bounded by the weight of the starting state |
| `Liveness.DeafIsEmpty` | src/stream.rs:248-252 | an opener removed before hearing anything has been given nothing |
| `Liveness.RestIsDelivered` | src/session.rs:91-203 | at rest, all that was written on a stream and its closing have been delivered to a user who is still there, exactly unless that user's head was removed before hearing anything and there was something to deliver |
| `Rest.CleanChecks` | src/session.rs:91-203 | what a poll that gets nothing done over a willing byte stream has found so far stays found; at its end it has found that its side is still |
| `Rest.MoveStill` | src/session.rs:91-203 | no step of either session changes two sessions that are still, nor what is in their buffers |
| `Rest.FairRunsComeStill` | src/session.rs:91-203 | every fair run, each side polled again and again and its byte stream fair when asked, comes to a state that is still and stays so |
| `Rest.CompleteExactly` | src/session.rs:91-203 | when both sides are still, all that one has queued has arrived at the other exactly if nothing is left in its buffer |
| `Rest.FairRunsEnd` | src/session.rs:91-203 | every fair run from a reachable state ends still, at rest and complete exactly if no bytes are left in a buffer, and then with every stream settled |
| `Rest.ActDry` | src/session.rs:187-200 | with flushes that are refused nothing, no step of a session or its users leaves bytes in the buffer that nothing will make it offer again |
| `Rest.FlushedRunsDeliver` | src/session.rs:91-203 | in every fair run in which the flush that ends a poll is refused nothing, from some point on both sides are at rest and every stream has settled |
| `Rest.WillingGoesOn` | src/session.rs:91-203 | a poll under way can always go on, and over a willing byte stream its next step gets something done or leaves what it has found |
| `Rest.RestIsReachable` | src/session.rs:91-203 | from every state the two sessions, left alone, can come to one that is still |
| `Rest.WrittenIsDelivered` | src/session.rs:91-203 | from every reachable state that strands no bytes already, the sessions alone can, in a bounded number of productive steps and without changing what users wrote, come to rest with every stream settled |
| `Rest.StrandedForGood` | src/session.rs:95-200 | bytes left in a buffer of two still sessions stay there under any further polls and do not arrive |
| `Losses.LossIsPermanent` | src/stream.rs:248-252 | in no state reachable from one like that are they delivered |
| `Losses.DeafHadClosed` | src/stream.rs:248-283 | in every reachable state only a user who has closed can have a head removed before it heard anything |
| `Losses.CarefulUsersLoseNothing` | src/stream.rs:239-294 | at rest, a user who is still there and has not closed, or whose head has received anything, has been given everything the peer wrote |
| `Losses.GoneStays` | src/session.rs:139-185 | between two sessions no move brings a removed head back |
| `Witnesses.LossHappens` | src/stream.rs:248-252 | a reachable state in which the server's user has written to an opener whose head is gone, and the bytes are not there |
| `Witnesses.BytesStranded` | src/session.rs:187-202 | a reachable state in which all a client's user wrote is in the writer's buffer, nothing is queued, and no further polls of the two sessions ever move it |

## Left out

- Wakers, `Pin`, `Context`, sockets, Tokio, logging, `Display` and the messages printed on drop: none carries protocol state. A returned `Pending` is modelled, who wakes the task is not, so progress is stated as what a session can do when polled.
- Transport I/O errors: a run ends there. A poll that returns the end is covered up to the last frame it could take, and the session is not followed further.
- `close` with its GoAway frame, `poll_close`, and everything after a session has ended (src/session.rs:82-85, src/session.rs:105-113): the close may succeed with frames still queued, so nothing of the kind "everything queued is sent first" holds.
- Internals of the futures channels: they are FIFOs with a closed flag. The capacity of the user's bounded channel is a parameter of `PollWrite` rather than a count.
- `Arc` sharing of chunk storage: a view keeps the immutable bytes of its block, and a payload chunk inside a frame is carried as a byte sequence.
- `Transport.YamuxTransport.PollWrite`: leaves out a byte stream that answers every write with zero bytes for ever, on which the code's loop spins (src/transport.rs:51-58). Any finite number of such answers is covered.
- A segment that is empty: pushing it is modelled, but not the failed expectation when it comes to the front of the reader (src/chunk.rs:418, src/chunk.rs:428). The transport pushes none.
- Overflow of `window.send` on `usize`: it is unbounded here. Crossing 2^64 takes more than 2^32 window updates.
- `EndpointGuarantees.HeadsNeverReject`: assumes, as every result over runs of one endpoint does, that no local open takes the id of a payload that is half delivered, the exact condition of `SessionProofs.OpenLockstep`, and `EndpointGuarantees.ClashRejects` shows it is needed; between two sessions of this implementation it always holds.
- After a peer that breaks the protocol makes a session accept an id again, the history and handle of the earlier stream with that id are no longer followed.
- `TwoEndpoints.ReachInv`: assumes no id wrap and no empty user writes; `HeadGuarantees.EmptyWriteStrays` shows what an empty write can do.
- `Rest.FairRunsComeStill`: users do nothing but read in such a run; with users who go on writing there is no rest to come to. A user who writes again queues something, and stranded bytes are offered then.
- `Witnesses.BytesStranded`: needs a write buffer limit above 24, so that three frames fit without being offered; a smaller limit leaves frames queued, and they are offered again.
- A bound on unread received bytes: the code has none, because credit is returned on receipt into an unbounded channel.
- Order of a payload on a Data frame that also carries FIN: the end marker is queued before the payload (src/stream.rs:132-133). This implementation never sends one.
- End of stream only on FIN for arbitrary peers: zero-length payloads are delivered as the same empty chunk as the end marker (src/stream.rs:324-326). Conforming peers send none.
- `poll_flush` of the handle, the example programs, the interoperability tests, unused error variants and the identifier predicates of src/packet.rs:82-97.
