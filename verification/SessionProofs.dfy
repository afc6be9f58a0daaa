/** What one endpoint keeps over every run, whatever bytes the peer sends, in whatever order its
    streams are drained, and whatever its users do. */
module SessionProofs {
  import opened Wire
  import opened StreamModel
  import opened SessionModel
  import SP = StreamProofs
  import Codec

  predicate Mirror(e: Endpoint) {
    && e.sess.streams.Keys <= e.runs.Keys
    && (forall id | id in e.sess.streams :: e.sess.streams[id] == e.runs[id].s)
    && (e.sess.draining.Some? ==> e.sess.draining.value in e.sess.streams)
  }

  predicate RunsInv(e: Endpoint) {
    forall id | id in e.runs :: SP.Inv(e.runs[id])
  }

  predicate LinkOut(e: Endpoint) {
    EncodeAll(e.started) == e.sent + e.sess.buffer
  }

  function Used(e: Endpoint): seq<byte> {
    var n := |Flat(e.sess.reader.segments)|;
    if n <= |e.got| then e.got[..|e.got| - n] else []
  }

  predicate Small(cs: seq<Chunk>) {
    forall i | 0 <= i < |cs| :: |cs[i]| <= READ_BUFFER
  }

  ghost predicate LinkIn(e: Endpoint) {
    && Codec.Tracks(Codec.Run(e.sess.reader, e.inputs, None), e.got, Used(e))
    && Small(e.sess.reader.segments)
  }

  /** The payload announced by the last header taken from a half-drained head. */
  function Owed(id: u32, outs: seq<StreamEvent>): Option<Codec.Pending> {
    if outs != [] && outs[0].DataChunk? then Some(Codec.Pending(id, |outs[0].chunk|)) else None
  }

  function OwedBy(s: Session): Option<Codec.Pending> {
    if s.draining.Some? && s.draining.value in s.streams then
      Owed(s.draining.value, s.streams[s.draining.value].outs)
    else None
  }

  predicate AtBoundary(s: Stream) {
    s.outs != [] ==> !s.outs[0].DataChunk?
  }

  /** The frames queued so far are ones FrameWriter would have accepted. */
  predicate Framed(e: Endpoint) {
    && Codec.WriteAll(None, Queued(e)) == Ok(OwedBy(e.sess))
    && forall id | id in e.sess.streams && e.sess.draining != Some(id) :: AtBoundary(e.sess.streams[id])
  }

  /** Every head expects exactly what the reader is in the middle of. */
  predicate Lockstep(s: Session) {
    forall id | id in s.streams ::
      s.streams[id].recvState
      == if s.reader.pending.Some? && s.reader.pending.value.id == id then Some(s.reader.pending.value.remain) else None
  }

  predicate Bounded(s: Session) {
    && (forall i | 0 <= i < |s.outQueue| :: |Encode(s.outQueue[i])| <= CHUNK_CAPACITY)
    && |s.buffer| <= (if s.limit == 0 then 0 else s.limit - 1) + CHUNK_CAPACITY
  }

  /** Where `poll_next` is goes with what it is doing: a head is drained only in its turn, and those
      that are to be removed have ended. */
  predicate Phased(s: Session) {
    && (s.phase.Sending? && s.phase.asked ==> s.outQueue != [])
    && (s.draining.Some? ==>
          s.phase.Serving? && s.draining.value !in s.phase.todo && s.draining.value !in s.phase.ended)
    && (s.phase.Serving? ==>
          && s.phase.todo <= s.streams.Keys && s.phase.todo !! s.phase.ended
          && forall id | id in s.phase.ended :: id in s.streams && PollNext(s.streams[id]).1.Finished?)
  }

  ghost predicate EInv(e: Endpoint) {
    && Mirror(e) && RunsInv(e) && LinkOut(e) && LinkIn(e) && Framed(e)
    && Lockstep(e.sess) && Bounded(e.sess) && Phased(e.sess)
  }

  /** A local open takes the id of a payload that is half delivered. */
  predicate Clash(s: Session) {
    s.reader.pending.Some? && s.reader.pending.value.id == s.nextId
  }

  predicate Harmless(e: Endpoint, a: Action) {
    a == Internal(OpenStream) ==> !Clash(e.sess)
  }

  lemma NewEndpointInv(isServer: bool, limit: nat)
    ensures EInv(NewEndpoint(isServer, limit))
  {
  }

  // --- Lockstep ----------------------------------------------------------------------------

  lemma FlagsKeepRecv(s: Stream, f: Flags)
    ensures HandleFlags(s, f).recvState == s.recvState
  {
  }

  /** In step, a head accepts whatever the reader parses for it. */
  lemma DispatchAccepted(s: Session)
    requires Lockstep(s) && Codec.NextFrame(s.reader).1.Parsed?
    ensures var f := Codec.NextFrame(s.reader).1.frame;
            f.StreamFrame? && f.id in s.streams ==> OnInput(s.streams[f.id], f.event).Ok?
  {
    hide HandleFlags, MarkReceived, SendDown, DecodeHeader;
  }

  lemma InputRecv(s: Stream, e: StreamEvent)
    requires OnInput(s, e).Ok?
    ensures var s' := OnInput(s, e).value;
            s'.recvState == match e
              case Data(_, size) => Some(size)
              case DataChunk(c) => if s.recvState.value == |c| then None else Some(s.recvState.value - |c|)
              case WindowUpdate(_, _) => s.recvState
  {
    if !e.DataChunk? {
      FlagsKeepRecv(s, e.flags);
    }
  }

  lemma FreshAccepts(e: StreamEvent)
    requires !e.DataChunk?
    ensures NewStream(false).recvState == None && OnInput(NewStream(false), e).Ok?
  {
  }

  lemma NextFrameLockstep(s: Session)
    requires Lockstep(s) && Enabled(s, NextFrame)
    ensures Lockstep(Do(s, NextFrame))
  {
    hide OnInput, DecodeHeader, NewStream, Flat;
    var (reader, next) := Codec.NextFrame(s.reader);
    var f := next.frame;
    DispatchAccepted(s);
    if f.StreamFrame? {
      if f.id in s.streams {
        InputRecv(s.streams[f.id], f.event);
      } else if Accepts(s, f) {
        FreshAccepts(f.event);
        InputRecv(NewStream(false), f.event);
      }
    }
  }

  lemma PollLockstep(s: Session)
    requires Lockstep(s) && Enabled(s, PollHead)
    ensures Lockstep(Do(s, PollHead))
  {
    hide PollNext;
    SP.PollKeeps(s.streams[s.draining.value]);
  }

  lemma UserRecv(s: Stream, op: Op)
    ensures UserStep(s, op).recvState == s.recvState
  {
  }

  lemma StepLockstep(s: Session, l: Label)
    requires Lockstep(s) && Enabled(s, l) && (l.OpenStream? ==> !Clash(s))
    ensures Lockstep(Do(s, l))
  {
    hide PollNext, OnInput, Encode, DecodeHeader, Codec.NextFrame, UserStep, Dispatch;
    match l
    case NextFrame => NextFrameLockstep(s);
    case PollHead => PollLockstep(s);
    case User(id, op) => UserRecv(s.streams[id], op);
    case _ =>
  }

  /** The one step that can put head and reader out of step, and exactly when it does. */
  lemma OpenLockstep(s: Session)
    requires Lockstep(s) && Enabled(s, OpenStream)
    ensures Lockstep(Do(s, OpenStream)) <==> !Clash(s)
  {
    var s' := Do(s, OpenStream);
    assert s'.streams[s.nextId].recvState == None;
  }

  // --- Framing -----------------------------------------------------------------------------

  /** Popping from a head moves the writer's state along with what the head still owes. */
  lemma PopFramed(h: History, id: u32)
    requires SP.PairedInv(h) && h.s.outs != []
    ensures var (e, rest) := (h.s.outs[0], h.s.outs[1..]);
            && Codec.WriteFrame(Owed(id, h.s.outs), StreamFrame(id, e)) == Ok(Owed(id, rest))
            && |Encode(StreamFrame(id, e))| <= CHUNK_CAPACITY
  {
    var es, n := h.popped + h.s.outs, |h.popped|;
    assert es[n] == h.s.outs[0];
    if |h.s.outs| > 1 {
      assert es[n + 1] == h.s.outs[1];
    }
    assert es[n].DataChunk? ==> es[n - 1].Data?;
  }

  lemma WriteAllSnoc(fs: seq<Frame>, f: Frame, p: Option<Codec.Pending>)
    requires Codec.WriteAll(None, fs) == Ok(p)
    ensures Codec.WriteAll(None, fs + [f]) == Codec.WriteFrame(p, f)
  {
    assert (fs + [f])[..|fs + [f]| - 1] == fs;
  }

  lemma BoundaryOf(popped: seq<StreamEvent>, outs: seq<StreamEvent>)
    requires SP.Paired(popped) && SP.Paired(popped + outs)
    ensures outs != [] ==> !outs[0].DataChunk?
  {
    if outs != [] {
      var es, n := popped + outs, |popped|;
      assert es[n] == outs[0];
      assert n > 0 ==> es[n - 1] == popped[n - 1];
    }
  }

  lemma PairedOf(h: History)
    requires SP.Inv(h)
    ensures SP.Paired(h.popped + h.s.outs)
  {
  }

  /** With nothing queued, what a fill adds starts at a header. */
  lemma FillBoundary(h: History)
    requires SP.Inv(h) && SP.Open(h) && h.s.outs == []
    ensures SP.Inv(h.(s := Fill(h.s))) && AtBoundary(Fill(h.s))
  {
    hide Fill, SP.Inv, SP.Paired;
    SP.FillInv(h);
    PairedOf(h);
    PairedOf(h.(s := Fill(h.s)));
    assert h.popped + h.s.outs == h.popped;
    BoundaryOf(h.popped, Fill(h.s).outs);
  }

  /** The head about to be popped, after the fill that `poll_next` may do first. */
  function Filled(h: History): History {
    if h.s.outs == [] && (h.s.local || h.s.remote) then h.(s := Fill(h.s)) else h
  }

  lemma FilledInv(h: History, id: u32)
    requires SP.Inv(h)
    ensures SP.Inv(Filled(h)) && Owed(id, Filled(h).s.outs) == Owed(id, h.s.outs)
    ensures PollNext(h.s) == PopOut(Filled(h).s) || (PollNext(h.s) == (h.s, Finished) && h.s.outs == [])
  {
    hide Fill, SP.Inv;
    if h.s.outs == [] && (h.s.local || h.s.remote) {
      FillBoundary(h);
    }
  }

  /** What a poll of the draining head does to the session. */
  lemma PollEffect(e: Endpoint)
    requires Mirror(e) && CanAct(e, Internal(PollHead))
    ensures var (id, e') := (e.sess.draining.value, Act(e, Internal(PollHead)));
            && id in e.sess.streams && e.sess.streams[id] == e.runs[id].s
            && var (st, polled) := PollNext(e.runs[id].s);
            && e'.sess.streams == e.sess.streams[id := st]
            && (polled.Ready? ==>
                  && Queued(e') == Queued(e) + [StreamFrame(id, polled.event)]
                  && e'.sess.outQueue == e.sess.outQueue + [StreamFrame(id, polled.event)]
                  && e'.sess.draining == e.sess.draining)
            && (!polled.Ready? ==>
                  && Queued(e') == Queued(e) && e'.sess.outQueue == e.sess.outQueue && e'.sess.draining == None)
  {
    hide PollNext, Step;
  }

  lemma ActSess(e: Endpoint)
    requires CanAct(e, Internal(PollHead))
    ensures Act(e, Internal(PollHead)).sess == Do(e.sess, PollHead)
  {
    hide Do, Step;
  }

  lemma PollFramed(e: Endpoint)
    requires Mirror(e) && RunsInv(e) && Framed(e) && CanAct(e, Internal(PollHead))
    ensures Framed(Act(e, Internal(PollHead)))
    ensures var q := Do(e.sess, PollHead).outQueue;
            forall i | |e.sess.outQueue| <= i < |q| :: |Encode(q[i])| <= CHUNK_CAPACITY
  {
    hide Fill, PollNext, Encode, SP.Inv, Codec.WriteAll, Act, SP.Paired, Queued, Filled;
    var id := e.sess.draining.value;
    var h := e.runs[id];
    PollEffect(e);
    FilledInv(h, id);
    var e' := Act(e, Internal(PollHead));
    ActSess(e);
    if PollNext(h.s).1.Ready? {
      PairedOf(Filled(h));
      PopFramed(Filled(h), id);
      WriteAllSnoc(Queued(e), StreamFrame(id, PollNext(h.s).1.event), OwedBy(e.sess));
    }
  }

  lemma InputBoundary(s: Stream, e: StreamEvent)
    requires AtBoundary(s)
    ensures AtBoundary(OnInputOrSame(s, e))
  {
    hide HandleFlags, SendDown;
    if OnInput(s, e).Ok? {
      if e.DataChunk? {
        SP.ChunkEffect(s, e.chunk);
      } else {
        SP.FlagsState(s, e.flags);
      }
    }
  }

  lemma NewBoundary(opener: bool)
    ensures AtBoundary(NewStream(opener))
  {
  }

  lemma DispatchFramed(s: Session, f: Frame, queued: seq<Frame>)
    requires s.draining.None? && Codec.WriteAll(None, queued + s.outQueue) == Ok(None)
    requires forall id | id in s.streams :: AtBoundary(s.streams[id])
    ensures Codec.WriteAll(None, queued + Dispatch(s, f).outQueue) == Ok(None)
    ensures forall id | id in Dispatch(s, f).streams :: AtBoundary(Dispatch(s, f).streams[id])
  {
    hide OnInputOrSame, AtBoundary, NewStream;
    if f.SessionFrame? {
      if f.control.Ping? {
        var reply := SessionFrame(Ping(ACK, f.control.code));
        WriteAllSnoc(queued + s.outQueue, reply, None);
        assert queued + (s.outQueue + [reply]) == (queued + s.outQueue) + [reply];
      }
    } else if f.id in s.streams {
      InputBoundary(s.streams[f.id], f.event);
    } else if Accepts(s, f) {
      NewBoundary(false);
      InputBoundary(NewStream(false), f.event);
    }
  }

  lemma DispatchDraining(s: Session, f: Frame)
    ensures Dispatch(s, f).draining == s.draining && Dispatch(s, f).phase == s.phase
    ensures Dispatch(s, f).reader == s.reader
    ensures Dispatch(s, f).buffer == s.buffer && Dispatch(s, f).limit == s.limit && Dispatch(s, f).nextId == s.nextId
  {
  }

  lemma NextFrameFramed(e: Endpoint)
    requires Mirror(e) && Framed(e) && CanAct(e, Internal(NextFrame))
    ensures Framed(Act(e, Internal(NextFrame)))
  {
    hide Dispatch, RunsAfterFrame, DecodeHeader, AtBoundary, Codec.WriteAll;
    var (reader, next) := Codec.NextFrame(e.sess.reader);
    DispatchFramed(e.sess.(reader := reader), next.frame, e.started);
    DispatchDraining(e.sess.(reader := reader), next.frame);
  }

  lemma UserOuts(s: Stream, op: Op)
    ensures var s' := UserStep(s, op); s'.outs == s.outs && s'.recvState == s.recvState && s'.down == s.down
  {
  }

  lemma ActFramed(e: Endpoint, a: Action)
    requires Mirror(e) && RunsInv(e) && Framed(e) && CanAct(e, a)
    ensures Framed(Act(e, a))
  {
    hide PollNext, OnInput, Encode, DecodeHeader, SP.Inv, Step, Codec.WriteAll;
    if a.Internal? {
      match a.step
      case OpenStream => NewBoundary(true);
      case StartSend => assert Queued(Act(e, a)) == Queued(e);
      case NextFrame => NextFrameFramed(e);
      case PollHead => PollFramed(e);
      case User(id, op) => UserOuts(e.sess.streams[id], op);
      case _ =>
    }
  }

  // --- Buffers -----------------------------------------------------------------------------

  lemma DispatchBounded(s: Session, f: Frame)
    requires Bounded(s)
    ensures Bounded(Dispatch(s, f))
  {
    hide OnInputOrSame, Accepts, NewStream, EncodeHeader;
  }

  lemma SendBounded(s: Session, l: Label)
    requires Bounded(s) && Enabled(s, l) && (l.StartSend? || l.Offer?)
    ensures Bounded(Do(s, l))
  {
    hide Encode;
  }

  lemma ActBounded(e: Endpoint, a: Action)
    requires Mirror(e) && RunsInv(e) && Framed(e) && Bounded(e.sess) && CanAct(e, a)
    ensures Bounded(Act(e, a).sess)
  {
    hide PollNext, OnInput, Encode, DecodeHeader, SP.Inv, Step, Dispatch, Codec.NextFrame, RunsInv, Framed;
    hide Accepts, UserStep;
    if a.Internal? {
      match a.step
      case NextFrame =>
        var (reader, next) := Codec.NextFrame(e.sess.reader);
        DispatchBounded(e.sess.(reader := reader), next.frame);
      case PollHead => PollFramed(e);
      case StartSend => SendBounded(e.sess, a.step);
      case Offer(_) => SendBounded(e.sess, a.step);
      case _ =>
    }
  }

  // --- Phases ------------------------------------------------------------------------------

  /** A user cannot bring an ended head back to life. */
  lemma UserEnded(s: Stream, op: Op)
    ensures PollNext(s).1.Finished? ==> PollNext(UserStep(s, op)).1.Finished?
  {
    hide Fill;
  }

  lemma FinishedStays(s: Stream)
    ensures PollNext(s).1.Finished? ==> PollNext(s).0 == s
  {
    hide Fill;
  }

  lemma ActPhased(e: Endpoint, a: Action)
    requires Phased(e.sess) && CanAct(e, a)
    ensures Phased(Act(e, a).sess)
  {
    hide PollNext, OnInput, Encode, Codec.NextFrame, Step, RunsAfterFrame, SendReady, UserStep, Dispatch;
    if a.Internal? {
      match a.step
      case NextFrame =>
        var (reader, next) := Codec.NextFrame(e.sess.reader);
        DispatchDraining(e.sess.(reader := reader), next.frame);
      case PollHead => FinishedStays(e.sess.streams[e.sess.draining.value]);
      case User(id, op) => UserEnded(e.sess.streams[id], op);
      case _ =>
    }
  }

  lemma EncodeAllSnoc(fs: seq<Frame>, f: Frame)
    ensures EncodeAll(fs + [f]) == EncodeAll(fs) + Encode(f)
  {
    FlatMapConcat(Encode, fs, [f]);
    FlatMapOne(Encode, f);
  }

  lemma ActLinkOut(e: Endpoint, a: Action)
    requires LinkOut(e) && CanAct(e, a)
    ensures LinkOut(Act(e, a))
  {
    hide PollNext, OnInput, Encode, EncodeAll, DecodeHeader, Step, Dispatch, NewStream;
    if a.Internal? {
      match a.step
      case StartSend => EncodeAllSnoc(e.started, e.sess.outQueue[0]);
      case NextFrame =>
        var (reader, next) := Codec.NextFrame(e.sess.reader);
        DispatchDraining(e.sess.(reader := reader), next.frame);
      case Offer(n) => assert e.sess.buffer == e.sess.buffer[..n] + e.sess.buffer[n..];
      case _ =>
    }
  }

  function ReaderRun(e: Endpoint): Codec.Run {
    Codec.Run(e.sess.reader, e.inputs, None)
  }

  lemma UsedIs(e: Endpoint, used: seq<byte>)
    requires Codec.Tracks(ReaderRun(e), e.got, used)
    ensures Used(e) == used
  {
  }

  lemma ReceiveLinkIn(e: Endpoint, c: Chunk)
    requires LinkIn(e) && CanAct(e, Internal(Receive(c)))
    ensures LinkIn(Act(e, Internal(Receive(c))))
  {
    hide Codec.Tracks, Codec.NextFrame, Flat;
    var e' := Act(e, Internal(Receive(c)));
    Codec.PushTracks(ReaderRun(e), e.got, Used(e), c);
    UsedIs(e', Used(e));
  }

  lemma {:induction false} DropBytesSmall(cs: seq<Chunk>, n: nat)
    requires Small(cs)
    ensures Small(Codec.DropBytes(cs, n))
  {
    if n == 0 || cs == [] {
    } else {
      if n >= |cs[0]| {
        DropBytesSmall(cs[1..], n - |cs[0]|);
      } else {
        assert Codec.DropBytes(cs, n) == [cs[0][n..]] + cs[1..];
      }
    }
  }

  lemma NextFrameSmall(r: Codec.Reader)
    requires Small(r.segments)
    ensures Small(Codec.NextFrame(r).0.segments)
  {
    hide DecodeHeader, Codec.DropBytes, Small;
    forall n: nat ensures Small(Codec.DropBytes(r.segments, n)) {
      DropBytesSmall(r.segments, n);
    }
  }

  lemma NoErrorTracks(e: Endpoint)
    requires LinkIn(e) && Codec.NextFrame(e.sess.reader).1.Parsed?
    ensures Codec.Tracks(ReaderRun(e), e.got, Used(e))
    ensures var (reader, next) := Codec.NextFrame(e.sess.reader);
            Codec.Step(ReaderRun(e), Codec.Next) == Codec.Run(reader, e.inputs + [next.frame], None)
  {
    hide Codec.Tracks, Codec.NextFrame;
  }

  lemma NextFrameLinkIn(e: Endpoint)
    requires LinkIn(e) && CanAct(e, Internal(NextFrame))
    ensures LinkIn(Act(e, Internal(NextFrame)))
  {
    hide Codec.Tracks, Codec.NextFrame, Codec.Consumed, Flat, Dispatch, RunsAfterFrame;
    var e' := Act(e, Internal(NextFrame));
    var (reader, next) := Codec.NextFrame(e.sess.reader);
    DispatchDraining(e.sess.(reader := reader), next.frame);
    NextFrameSmall(e.sess.reader);
    NoErrorTracks(e);
    Codec.NextTracks(ReaderRun(e), e.got, Used(e));
    UsedIs(e', Used(e) + Codec.Consumed(e.sess.reader));
  }

  lemma ActLinkIn(e: Endpoint, a: Action)
    requires LinkIn(e) && CanAct(e, a)
    ensures LinkIn(Act(e, a))
  {
    hide PollNext, OnInput, Encode, Codec.NextFrame, Step, Dispatch, Codec.Tracks, Flat, RunsAfterFrame, NewStream;
    if a == Internal(NextFrame) {
      NextFrameLinkIn(e);
    } else if a.Internal? && a.step.Receive? {
      ReceiveLinkIn(e, a.step.segment);
    } else {
      assert Act(e, a).sess.reader == e.sess.reader && Act(e, a).got == e.got && Act(e, a).inputs == e.inputs;
    }
  }

  // --- Streams -----------------------------------------------------------------------------

  /** Reader and head in step make every dispatched input one the head's invariant covers. */
  lemma DispatchLegal(e: Endpoint)
    requires Mirror(e) && Lockstep(e.sess) && LinkIn(e) && Codec.NextFrame(e.sess.reader).1.Parsed?
    ensures var f := Codec.NextFrame(e.sess.reader).1.frame;
            f.StreamFrame? && f.id in e.sess.streams ==> Legal(e.runs[f.id], Input(f.event))
  {
    hide DecodeHeader, Codec.Scan, Codec.Read, Flat, Codec.DropBytes;
  }

  lemma HeaderLegal(h: History, e: StreamEvent)
    requires !e.DataChunk?
    ensures Legal(h, Input(e))
  {
  }

  lemma FrameRuns(e: Endpoint)
    requires Mirror(e) && RunsInv(e) && Lockstep(e.sess) && LinkIn(e) && CanAct(e, Internal(NextFrame))
    ensures RunsInv(Act(e, Internal(NextFrame)))
  {
    hide SP.Inv, Step, Birth, Codec.NextFrame, Dispatch, Do, LinkIn, Lockstep, Legal;
    var f := Codec.NextFrame(e.sess.reader).1.frame;
    DispatchLegal(e);
    if f.StreamFrame? && f.id in e.sess.streams {
      SP.InputInv(e.runs[f.id], f.event);
    } else if Accepts(e.sess, f) {
      SP.BirthInv(false);
      assert Legal(Birth(false), Input(f.event)) by { HeaderLegal(Birth(false), f.event); }
      SP.InputInv(Birth(false), f.event);
    }
  }

  lemma ActRuns(e: Endpoint, a: Action)
    requires Mirror(e) && RunsInv(e) && Lockstep(e.sess) && LinkIn(e) && CanAct(e, a)
    ensures RunsInv(Act(e, a))
  {
    hide SP.Inv, Step, Birth, Codec.NextFrame, Do, LinkIn, Lockstep, RunsAfterFrame, Accepts;
    if a == Internal(NextFrame) {
      FrameRuns(e);
    } else if a.Internal? {
      match a.step
      case OpenStream => SP.BirthInv(true);
      case PollHead => SP.PollInv(e.runs[e.sess.draining.value]);
      case User(id, op) => SP.UserInv(e.runs[id], op);
      case _ =>
    }
  }

  lemma StepMirrors(h: History, e: StreamEvent, op: Op)
    ensures Step(h, Input(e)).s == OnInputOrSame(h.s, e)
    ensures Step(h, Poll).s == PollNext(h.s).0
    ensures op.Write? || op.CloseUser? || op.DropUser? ==> Step(h, op).s == UserStep(h.s, op)
    ensures Birth(false).s == NewStream(false) && Birth(true).s == NewStream(true)
  {
    hide OnInput, PollNext, NewStream;
  }

  lemma FrameMirror(e: Endpoint)
    requires Mirror(e) && CanAct(e, Internal(NextFrame))
    ensures Mirror(Act(e, Internal(NextFrame)))
  {
    hide OnInput, OnInputOrSame, NewStream, Step, Birth, Codec.NextFrame;
    var f := Codec.NextFrame(e.sess.reader).1.frame;
    if f.StreamFrame? && f.id in e.sess.streams {
      StepMirrors(e.runs[f.id], f.event, Poll);
    } else if f.StreamFrame? {
      StepMirrors(Birth(false), f.event, Poll);
    }
  }

  lemma ActMirror(e: Endpoint, a: Action)
    requires Mirror(e) && CanAct(e, a)
    ensures Mirror(Act(e, a))
  {
    hide OnInput, PollNext, NewStream, Step, Birth, Codec.NextFrame, Encode, UserStep, RunsAfterFrame, Taken;
    if a == Internal(NextFrame) {
      FrameMirror(e);
    } else if a.Internal? {
      match a.step
      case OpenStream => StepMirrors(Birth(true), DataChunk([]), Poll);
      case PollHead => StepMirrors(e.runs[e.sess.draining.value], DataChunk([]), Poll);
      case User(id, op) => StepMirrors(e.runs[id], DataChunk([]), op);
      case _ =>
    }
  }

  /** Every action keeps the invariant. */
  lemma ActInv(e: Endpoint, a: Action)
    requires EInv(e) && CanAct(e, a) && Harmless(e, a)
    ensures EInv(Act(e, a))
  {
    hide Mirror, RunsInv, LinkOut, LinkIn, Framed, Lockstep, Bounded, Phased, Do;
    ActPhased(e, a);
    ActMirror(e, a);
    ActRuns(e, a);
    ActLinkOut(e, a);
    ActLinkIn(e, a);
    ActFramed(e, a);
    ActBounded(e, a);
    if a.Internal? {
      StepLockstep(e.sess, a.step);
    }
  }

  // --- From the session object to the endpoint ---------------------------------------------

  /** The endpoint's moves for a sequence of session labels. */
  function ActAll(e: Endpoint, ls: seq<Label>): Option<Endpoint> {
    if ls == [] then Some(e)
    else
      match ActAll(e, ls[..|ls| - 1])
      case None => None
      case Some(f) => if CanAct(f, Internal(ls[|ls| - 1])) then Some(Act(f, Internal(ls[|ls| - 1]))) else None
  }

  lemma ActIsDo(e: Endpoint, l: Label)
    requires Mirror(e) && Enabled(e.sess, l)
    ensures CanAct(e, Internal(l)) && Act(e, Internal(l)).sess == Do(e.sess, l)
  {
    hide Do, Step, RunsAfterFrame, Birth, Codec.NextFrame, PollNext;
  }

  lemma ActBytes(e: Endpoint, l: Label)
    requires CanAct(e, Internal(l))
    ensures Act(e, Internal(l)).sent == e.sent + LeavesBy(e.sess, l)
    ensures Act(e, Internal(l)).got == e.got + ArrivesBy(l)
  {
    hide Do, Step, RunsAfterFrame, Birth, Codec.NextFrame, PollNext;
  }

  lemma MirrorOf(e: Endpoint)
    requires EInv(e)
    ensures Mirror(e)
  {
  }

  /** Whatever labels the session performs, the endpoint with its history can follow, having sent
      and got the bytes the session exchanged, and keeps its invariant. */
  lemma {:induction false} PerformInv(e: Endpoint, ls: seq<Label>)
    requires EInv(e) && Perform(e.sess, ls).Some?
    ensures ActAll(e, ls).Some? && ActAll(e, ls).value.sess == Perform(e.sess, ls).value
    ensures ActAll(e, ls).value.sent == e.sent + BytesOut(e.sess, ls)
    ensures ActAll(e, ls).value.got == e.got + BytesIn(ls)
    ensures EInv(ActAll(e, ls).value)
  {
    hide EInv, Do, Enabled, Act, CanAct, LeavesBy, ArrivesBy;
    if ls == [] {
    } else {
      var front, l := ls[..|ls| - 1], ls[|ls| - 1];
      PerformInv(e, front);
      var f := ActAll(e, front).value;
      assert Mirror(f) by { MirrorOf(f); }
      ActIsDo(f, l);
      ActBytes(f, l);
      ActInv(f, Internal(l));
    }
  }
}
