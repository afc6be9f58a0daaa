/** What one endpoint guarantees over every run against any peer, whatever bytes it sends. */
module EndpointGuarantees {
  import opened Wire
  import opened StreamModel
  import opened SessionModel
  import opened SessionProofs
  import SP = StreamProofs
  import Codec

  /** A run with arbitrary network input, segmentation, drain order and users, in which no local
      open takes the id of a payload that is half delivered. */
  function RunFrom(e: Endpoint, actions: seq<Action>): Option<Endpoint> {
    if actions == [] then Some(e)
    else
      match RunFrom(e, actions[..|actions| - 1])
      case None => None
      case Some(f) =>
        var a := actions[|actions| - 1];
        if CanAct(f, a) && Harmless(f, a) then Some(Act(f, a)) else None
  }

  /** The reader holds at most one read on top of an unfinished header. */
  predicate ReaderBounded(s: Session) {
    |Flat(s.reader.segments)| <= HEADER_LEN - 1 + READ_BUFFER
  }

  lemma ReceiveBounded(s: Session, c: Chunk)
    requires Enabled(s, Receive(c))
    ensures ReaderBounded(Do(s, Receive(c)))
  {
    hide DecodeHeader;
    FlatSnoc(s.reader.segments, c);
    assert s.reader.segments == [] ==> Flat(s.reader.segments) == [];
  }

  lemma NextFrameBounded(s: Session)
    requires NonEmpty(s.reader.segments) && Enabled(s, NextFrame) && ReaderBounded(s)
    ensures ReaderBounded(Do(s, NextFrame))
  {
    hide Flat, Dispatch, Codec.NextFrame;
    Codec.NextFrameShrinks(s.reader);
    var (reader, next) := Codec.NextFrame(s.reader);
    DispatchDraining(s.(reader := reader), next.frame);
  }

  lemma ReaderNonEmpty(e: Endpoint)
    requires EInv(e)
    ensures NonEmpty(e.sess.reader.segments)
  {
    hide Mirror, RunsInv, LinkOut, Framed, Lockstep, Bounded, Codec.Scan, Codec.Read, Flat;
  }

  lemma SameReader(e: Endpoint, a: Action)
    requires CanAct(e, a) && a != Internal(NextFrame) && !(a.Internal? && a.step.Receive?) && ReaderBounded(e.sess)
    ensures ReaderBounded(Act(e, a).sess)
  {
    hide Flat, PollNext, Encode, Step;
  }

  lemma ActReaderBounded(e: Endpoint, a: Action)
    requires EInv(e) && CanAct(e, a) && ReaderBounded(e.sess)
    ensures ReaderBounded(Act(e, a).sess)
  {
    hide EInv, Flat, Dispatch, Codec.NextFrame, RunsAfterFrame, PollNext, Encode, Step, ReaderBounded;
    if a == Internal(NextFrame) {
      ReaderNonEmpty(e);
      NextFrameBounded(e.sess);
    } else if a.Internal? && a.step.Receive? {
      ReceiveBounded(e.sess, a.step.segment);
    } else {
      SameReader(e, a);
    }
  }

  lemma {:induction false} RunFromInv(isServer: bool, limit: nat, actions: seq<Action>)
    requires RunFrom(NewEndpoint(isServer, limit), actions).Some?
    ensures var e := RunFrom(NewEndpoint(isServer, limit), actions).value; EInv(e) && ReaderBounded(e.sess)
  {
    hide EInv, Act, CanAct, Harmless;
    var start := NewEndpoint(isServer, limit);
    if actions == [] {
      NewEndpointInv(isServer, limit);
    } else {
      var front, a := actions[..|actions| - 1], actions[|actions| - 1];
      RunFromInv(isServer, limit, front);
      ActInv(RunFrom(start, front).value, a);
      ActReaderBounded(RunFrom(start, front).value, a);
    }
  }

  /** The frames a session hands to its transport, followed by those still queued, are a sequence
      the checking writer would have accepted, although nothing checks them; and between head
      drains no payload is owed. */
  lemma {:induction false} OutputIsWellFramed(isServer: bool, limit: nat, actions: seq<Action>)
    requires RunFrom(NewEndpoint(isServer, limit), actions).Some?
    ensures var e := RunFrom(NewEndpoint(isServer, limit), actions).value;
            && Codec.Accepted(e.started + e.sess.outQueue)
            && (e.sess.draining.None? ==> Codec.WriteAll(None, e.started + e.sess.outQueue) == Ok(None))
            && EncodeAll(e.started) == e.sent + e.sess.buffer
  {
    hide Codec.WriteAll, RunFrom, EncodeAll;
    RunFromInv(isServer, limit, actions);
  }

  /** Reader and heads agree on which payload is in progress, so no head ever rejects what is
      dispatched to it. */
  lemma {:induction false} HeadsNeverReject(isServer: bool, limit: nat, actions: seq<Action>)
    requires RunFrom(NewEndpoint(isServer, limit), actions).Some?
    ensures var s := RunFrom(NewEndpoint(isServer, limit), actions).value.sess;
            && Lockstep(s)
            && (var next := Codec.NextFrame(s.reader).1;
                next.Parsed? && next.frame.StreamFrame? && next.frame.id in s.streams ==>
                  OnInput(s.streams[next.frame.id], next.frame.event).Ok?)
  {
    hide RunFrom, OnInput, Codec.NextFrame;
    RunFromInv(isServer, limit, actions);
    if Codec.NextFrame(RunFrom(NewEndpoint(isServer, limit), actions).value.sess.reader).1.Parsed? {
      DispatchAccepted(RunFrom(NewEndpoint(isServer, limit), actions).value.sess);
    }
  }

  lemma OneSegment(c: Chunk)
    ensures Flat([]) == [] && Flat([c]) == c
  {
    FlatSnoc([], c);
    assert [] + [c] == [c];
  }

  const ANNOUNCED: Frame := StreamFrame(1, Data(NO_FLAGS, 1))

  lemma AnnouncedReads(c: Chunk)
    requires c == Encode(ANNOUNCED)
    ensures 1 <= |c| <= READ_BUFFER && [] + [c] == [c]
    ensures Codec.NextFrame(Codec.NEW_READER).1.NeedMore?
    ensures Codec.NextFrame(Codec.Reader([c], None))
         == (Codec.Reader([], Some(Codec.Pending(1, 1))), Codec.Parsed(ANNOUNCED))
    ensures Codec.NextFrame(Codec.Reader([], Some(Codec.Pending(1, 1)))).1.NeedMore?
  {
    hide EncodeHeader, DecodeHeader, FlatMap;
    OneSegment(c);
    FrameRoundTrip(ANNOUNCED);
    assert c[..HEADER_LEN] == c && Codec.DropBytes([c], HEADER_LEN) == [];
  }

  /** What is left of a poll when nothing was sent and there is no stream. */
  lemma NothingServed(t: Session)
    requires t.phase == Reading(false) && t.draining.None? && t.streams == map[] && t.outQueue == []
    requires Codec.NextFrame(t.reader).1.NeedMore?
    ensures Perform(t, [StopReading, EndServing, Leave]) == Some(t.(phase := Resting))
  {
    hide Codec.NextFrame, Perform;
    PerformNothing(t);
    var ls, u := Onwards(t, [], t, StopReading);
    ls, u := Onwards(t, ls, u, EndServing);
    ls, u := Onwards(t, ls, u, Leave);
    assert ls == [StopReading, EndServing, Leave];
  }

  lemma HeaderTaken(s: Session, c: Chunk)
    requires s.phase == Reading(false) && s.draining.None? && s.streams == map[] && s.reader == Codec.NEW_READER
    requires c == Encode(ANNOUNCED)
    ensures Perform(s, [Receive(c), NextFrame])
         == Some(s.(reader := Codec.Reader([], Some(Codec.Pending(1, 1)))))
  {
    hide Encode, Codec.NextFrame, Perform;
    AnnouncedReads(c);
    PerformNothing(s);
    var ls, t := Onwards(s, [], s, Receive(c));
    ls, t := Onwards(s, ls, t, NextFrame);
    assert ls == [Receive(c), NextFrame];
  }

  lemma ReadingBegun(s: Session)
    requires s.phase.Resting? && s.draining.None? && s.outQueue == []
    ensures Perform(s, [BeginPoll, Leave]) == Some(s.(phase := Reading(false)))
  {
    hide Perform;
    PerformNothing(s);
    var ls, t := Onwards(s, [], s, BeginPoll);
    ls, t := Onwards(s, ls, t, Leave);
    assert ls == [BeginPoll, Leave];
  }

  /** A header for a stream nobody has opened is dropped, and its payload is still expected. */
  lemma HeaderDropped(limit: nat)
    ensures Perform(NewSession(false, limit),
                    [BeginPoll, Leave, Receive(Encode(ANNOUNCED)), NextFrame, StopReading, EndServing, Leave])
         == Some(NewSession(false, limit).(reader := Codec.Reader([], Some(Codec.Pending(1, 1)))))
  {
    hide Encode, Codec.NextFrame, Perform;
    var c := Encode(ANNOUNCED);
    AnnouncedReads(c);
    var s := NewSession(false, limit);
    var t := s.(phase := Reading(false));
    var u := t.(reader := Codec.Reader([], Some(Codec.Pending(1, 1))));
    ReadingBegun(s);
    HeaderTaken(t, c);
    NothingServed(u);
    PerformConcat(s, [BeginPoll, Leave], [Receive(c), NextFrame]);
    PerformConcat(s, [BeginPoll, Leave] + [Receive(c), NextFrame], [StopReading, EndServing, Leave]);
    assert [BeginPoll, Leave] + [Receive(c), NextFrame] + [StopReading, EndServing, Leave]
        == [BeginPoll, Leave, Receive(c), NextFrame, StopReading, EndServing, Leave];
  }

  lemma PayloadArrives(u: Session)
    requires u.phase.Resting? && u.draining.None? && u.outQueue == []
    requires u.reader == Codec.Reader([], Some(Codec.Pending(1, 1)))
    ensures var t := Perform(u, [BeginPoll, Leave, Receive([7])]);
            && t.Some? && Enabled(t.value, NextFrame) && t.value.streams == u.streams
            && Codec.NextFrame(t.value.reader).1.frame == StreamFrame(1, DataChunk([7]))
  {
    hide Perform, BytesOut, BytesIn, FlatMap;
    assert [7][..1] == [7] && [] + [[7]] == [[7]];
    PerformNothing(u);
    var ls, t := Onwards(u, [], u, BeginPoll);
    ls, t := Onwards(u, ls, t, Leave);
    ls, t := Onwards(u, ls, t, Receive([7]));
    assert ls == [BeginPoll, Leave, Receive([7])];
  }

  /** The proviso on opening is needed. A client is sent a data header for the id it opens next,
      and is then given the payload: the new head rejects it. */
  lemma ClashRejects(limit: nat)
    ensures var poll := [BeginPoll, Leave, Receive(Encode(ANNOUNCED)), NextFrame, StopReading, EndServing, Leave];
            var first := Perform(NewSession(false, limit), poll);
            && first.Some? && Clash(first.value) && Enabled(first.value, OpenStream)
            && var second := Perform(Do(first.value, OpenStream), [BeginPoll, Leave, Receive([7])]);
            && second.Some? && Enabled(second.value, NextFrame)
            && Codec.NextFrame(second.value.reader).1.frame == StreamFrame(1, DataChunk([7]))
            && 1 in second.value.streams && OnInput(second.value.streams[1], DataChunk([7])) == Err(InvalidFrameType)
  {
    hide Encode, Perform, Codec.NextFrame;
    HeaderDropped(limit);
    var s := NewSession(false, limit).(reader := Codec.Reader([], Some(Codec.Pending(1, 1))));
    PayloadArrives(Do(s, OpenStream));
  }

  lemma ActLimit(e: Endpoint, a: Action)
    requires CanAct(e, a)
    ensures Act(e, a).sess.limit == e.sess.limit
  {
    hide Codec.NextFrame, PollNext, RunsAfterFrame, Step, OnInputOrSame, Accepts, Encode, Birth, UserStep;
  }

  lemma {:induction false} LimitKept(e: Endpoint, actions: seq<Action>)
    requires RunFrom(e, actions).Some?
    ensures RunFrom(e, actions).value.sess.limit == e.sess.limit
  {
    hide CanAct, Act;
    if actions == [] {
    } else {
      var before := actions[..|actions| - 1];
      LimitKept(e, before);
      ActLimit(RunFrom(e, before).value, actions[|actions| - 1]);
    }
  }

  /** Memory in the transport is bounded, both ways, whatever the peer sends and however slowly it
      reads. */
  lemma BuffersAreBounded(isServer: bool, limit: nat, actions: seq<Action>)
    requires RunFrom(NewEndpoint(isServer, limit), actions).Some?
    ensures var s := RunFrom(NewEndpoint(isServer, limit), actions).value.sess;
            && |s.buffer| <= (if limit == 0 then 0 else limit - 1) + CHUNK_CAPACITY
            && |Flat(s.reader.segments)| <= HEADER_LEN - 1 + READ_BUFFER
  {
    hide RunFrom, Flat, Encode;
    RunFromInv(isServer, limit, actions);
    LimitKept(NewEndpoint(isServer, limit), actions);
  }

  /** Every head, living or removed, keeps what heads guarantee. */
  lemma {:induction false} HeadsKeepTheirInvariant(isServer: bool, limit: nat, actions: seq<Action>, id: u32)
    requires RunFrom(NewEndpoint(isServer, limit), actions).Some?
    requires id in RunFrom(NewEndpoint(isServer, limit), actions).value.runs
    ensures SP.Inv(RunFrom(NewEndpoint(isServer, limit), actions).value.runs[id])
  {
    hide RunFrom, SP.Inv;
    RunFromInv(isServer, limit, actions);
  }

  // --- Pings -------------------------------------------------------------------------------

  function ControlOf(f: Frame): seq<SessionEvent> {
    if f.SessionFrame? then [f.control] else []
  }

  function ReplyTo(f: Frame): seq<SessionEvent> {
    if f.SessionFrame? && f.control.Ping? && f.control.pingFlags.syn then [Ping(ACK, f.control.code)] else []
  }

  predicate Answered(e: Endpoint) {
    FlatMap(ControlOf, Queued(e)) == FlatMap(ReplyTo, e.inputs)
  }

  lemma DispatchAnswers(s: Session, f: Frame)
    requires !EndsRun(f)
    ensures exists more ::
              Dispatch(s, f).outQueue == s.outQueue + more && FlatMap(ControlOf, more) == ReplyTo(f)
  {
    hide OnInputOrSame, NewStream;
    var more := if ReplyTo(f) == [] then [] else [SessionFrame(ReplyTo(f)[0])];
    assert Dispatch(s, f).outQueue == s.outQueue + more;
    if more != [] {
      FlatMapOne(ControlOf, more[0]);
    }
  }

  lemma PollAnswers(e: Endpoint)
    requires Mirror(e) && Answered(e) && CanAct(e, Internal(PollHead))
    ensures Answered(Act(e, Internal(PollHead)))
  {
    hide PollNext, Step, FlatMap;
    PollEffect(e);
    var e' := Act(e, Internal(PollHead));
    if Queued(e') != Queued(e) {
      var f := Queued(e')[|Queued(e)|];
      FlatMapConcat(ControlOf, Queued(e), [f]);
      FlatMapOne(ControlOf, f);
    }
  }

  lemma FrameAnswers(e: Endpoint)
    requires Answered(e) && CanAct(e, Internal(NextFrame))
    ensures Answered(Act(e, Internal(NextFrame)))
  {
    hide Codec.NextFrame, RunsAfterFrame, FlatMap, Dispatch, ControlOf, ReplyTo, Accepts;
    var e' := Act(e, Internal(NextFrame));
    var (reader, next) := Codec.NextFrame(e.sess.reader);
    var s := e.sess.(reader := reader);
    DispatchAnswers(s, next.frame);
    var more :|
      Dispatch(s, next.frame).outQueue == s.outQueue + more && FlatMap(ControlOf, more) == ReplyTo(next.frame);
    assert Queued(e') == Queued(e) + more;
    FlatMapConcat(ControlOf, Queued(e), more);
    FlatMapConcat(ReplyTo, e.inputs, [next.frame]);
    FlatMapOne(ReplyTo, next.frame);
  }

  lemma ActAnswers(e: Endpoint, a: Action)
    requires Mirror(e) && Answered(e) && CanAct(e, a)
    ensures Answered(Act(e, a))
  {
    hide Codec.NextFrame, PollNext, RunsAfterFrame, Step, Encode, FlatMap, Dispatch, ControlOf, ReplyTo, Taken;
    var e' := Act(e, a);
    if a == Internal(NextFrame) {
      FrameAnswers(e);
    } else if a == Internal(PollHead) {
      PollAnswers(e);
    } else if a == Internal(StartSend) {
      assert Queued(e') == Queued(e);
    }
  }

  /** Every ping is answered once, in order and with its own value, and no other control frame is
      ever sent. */
  lemma {:induction false} PingsAreAnswered(isServer: bool, limit: nat, actions: seq<Action>)
    requires RunFrom(NewEndpoint(isServer, limit), actions).Some?
    ensures var e := RunFrom(NewEndpoint(isServer, limit), actions).value;
            FlatMap(ControlOf, e.started + e.sess.outQueue) == FlatMap(ReplyTo, e.inputs)
  {
    hide EInv, Act, CanAct, Harmless, ControlOf, ReplyTo;
    if actions == [] {
    } else {
      var front, a := actions[..|actions| - 1], actions[|actions| - 1];
      PingsAreAnswered(isServer, limit, front);
      RunFromInv(isServer, limit, front);
      var e := RunFrom(NewEndpoint(isServer, limit), front).value;
      MirrorOf(e);
      ActAnswers(e, a);
    }
  }

  // --- Removal -----------------------------------------------------------------------------

  predicate EndsWith<T(==)>(ys: seq<T>, xs: seq<T>) {
    |xs| <= |ys| && ys[|ys| - |xs|..] == xs
  }

  /** What a head has given up was the last thing queued for its id, and one that is gone had
      nothing left and both halves closed. */
  predicate Reported(e: Endpoint, id: u32)
    requires id in e.runs
  {
    var h := e.runs[id];
    && EndsWith(Sent(e, id), Items(h.popped))
    && (id !in e.sess.streams ==> h.s.outs == [] && !h.s.local && !h.s.remote)
  }

  predicate AllReported(e: Endpoint) {
    forall id | id in e.runs :: Reported(e, id)
  }

  lemma EndsWithMore<T>(ys: seq<T>, xs: seq<T>, more: seq<T>)
    requires EndsWith(ys, xs)
    ensures EndsWith(ys + more, xs + more)
  {
    assert (ys + more)[|ys| - |xs|..] == ys[|ys| - |xs|..] + more;
  }

  lemma FreshReported(e: Endpoint, id: u32)
    requires id in e.runs && e.runs[id].popped == [] && id in e.sess.streams
    ensures Reported(e, id)
  {
    hide Sent;
    assert Items([]) == [];
    assert Sent(e, id)[|Sent(e, id)|..] == [];
  }

  lemma SentMore(e: Endpoint, e': Endpoint, f: Frame, id: u32)
    requires Queued(e') == Queued(e) + [f]
    ensures Sent(e', id) == Sent(e, id) + if f.StreamFrame? && f.id == id then ItemsOf(f.event) else []
  {
    ProjectSnoc(Queued(e), f, id);
  }

  lemma SentSame(e: Endpoint, e': Endpoint, id: u32)
    requires Queued(e') == Queued(e)
    ensures Sent(e', id) == Sent(e, id)
  {
  }

  lemma PollReported(e: Endpoint)
    requires Mirror(e) && AllReported(e) && CanAct(e, Internal(PollHead))
    ensures AllReported(Act(e, Internal(PollHead)))
  {
    hide PollNext, Sent, Items, ItemsOf, EndsWith;
    PollEffect(e);
    var e', polled := Act(e, Internal(PollHead)), e.sess.draining.value;
    var h := e.runs[polled];
    forall id | id in e'.runs ensures Reported(e', id) {
      assert Reported(e, id);
      if PollNext(h.s).1.Ready? {
        var ev := PollNext(h.s).1.event;
        assert Sent(e', id) == Sent(e, id) + (if id == polled then ItemsOf(ev) else []) by {
          SentMore(e, e', StreamFrame(polled, ev), id);
        }
        assert Sent(e, id) + [] == Sent(e, id);
        if id == polled {
          EndsWithMore(Sent(e, id), Items(h.popped), ItemsOf(ev));
          assert Items(h.popped + [ev]) == Items(h.popped) + ItemsOf(ev) by { AppendEvent(h.popped, ev); }
        }
      } else {
        assert Sent(e', id) == Sent(e, id) by { SentSame(e, e', id); }
      }
    }
  }

  lemma NextFrameReported(e: Endpoint)
    requires Mirror(e) && AllReported(e) && CanAct(e, Internal(NextFrame))
    ensures AllReported(Act(e, Internal(NextFrame)))
  {
    hide Codec.NextFrame, OnInput, Sent, Items, EndsWith;
    var e', f := Act(e, Internal(NextFrame)), Codec.NextFrame(e.sess.reader).1.frame;
    forall id | id in e'.runs ensures Reported(e', id) {
      if f.SessionFrame? && e'.sess.outQueue != e.sess.outQueue {
        assert Queued(e') == Queued(e) + [SessionFrame(Ping(ACK, f.control.code))];
        SentMore(e, e', SessionFrame(Ping(ACK, f.control.code)), id);
        assert Sent(e, id) + [] == Sent(e, id);
      } else {
        assert Sent(e', id) == Sent(e, id) by { SentSame(e, e', id); }
      }
      if Accepts(e.sess, f) && f.id == id {
        FreshReported(e', id);
      } else {
        assert Reported(e, id);
      }
    }
  }

  predicate KeepsQueue(a: Action) {
    a != Internal(NextFrame) && a != Internal(PollHead)
  }

  lemma QueueKept(e: Endpoint, a: Action)
    requires CanAct(e, a) && KeepsQueue(a)
    ensures Queued(Act(e, a)) == Queued(e)
  {
    hide Codec.NextFrame, PollNext, Encode, Step;
  }

  lemma UserPopped(h: History, op: Op)
    requires op.Write? || op.CloseUser? || op.DropUser?
    ensures Step(h, op).popped == h.popped
  {
  }

  /** Nothing but a poll takes anything from a head, and nothing but an open brings one back. */
  lemma HeadKept(e: Endpoint, a: Action, id: u32)
    requires Mirror(e) && CanAct(e, a) && KeepsQueue(a) && id in Act(e, a).runs
    requires a == Internal(OpenStream) ==> id != e.sess.nextId
    ensures id in e.runs && Act(e, a).runs[id].popped == e.runs[id].popped
    ensures id !in e.sess.streams ==> Act(e, a).runs[id] == e.runs[id] && id !in Act(e, a).sess.streams
    ensures id in e.sess.streams && id !in Act(e, a).sess.streams ==> Act(e, a).runs[id] == e.runs[id]
  {
    hide Codec.NextFrame, PollNext, Encode, Step;
    if a.Internal? && a.step.User? {
      UserPopped(e.runs[a.step.id], a.step.op);
    }
  }

  lemma OpenedIs(e: Endpoint)
    requires CanAct(e, Internal(OpenStream))
    ensures var e' := Act(e, Internal(OpenStream));
            && e.sess.nextId in e'.runs && e'.runs[e.sess.nextId].popped == [] && e.sess.nextId in e'.sess.streams
  {
  }

  lemma RemovedIsDone(e: Endpoint, a: Action, id: u32)
    requires Mirror(e) && CanAct(e, a) && KeepsQueue(a)
    requires id in e.sess.streams && id !in Act(e, a).sess.streams
    ensures e.runs[id].s.outs == [] && !e.runs[id].s.local && !e.runs[id].s.remote
  {
    hide Codec.NextFrame, Fill, Encode, RunsAfterFrame, Step, Dispatch, SendReady, UserStep, Offers, Leaves;
  }

  lemma ActReported(e: Endpoint, a: Action)
    requires Mirror(e) && AllReported(e) && CanAct(e, a)
    ensures AllReported(Act(e, a))
  {
    hide Act, CanAct, Sent, Items, EndsWith;
    var e' := Act(e, a);
    if a == Internal(NextFrame) {
      NextFrameReported(e);
    } else if a == Internal(PollHead) {
      PollReported(e);
    } else {
      QueueKept(e, a);
      forall id | id in e'.runs ensures Reported(e', id) {
        SentSame(e, e', id);
        if a == Internal(OpenStream) && id == e.sess.nextId {
          OpenedIs(e);
          FreshReported(e', id);
        } else {
          HeadKept(e, a, id);
          assert Reported(e, id);
          if id in e.sess.streams && id !in e'.sess.streams {
            RemovedIsDone(e, a, id);
          }
        }
      }
    }
  }

  lemma {:induction false} RunReported(isServer: bool, limit: nat, actions: seq<Action>)
    requires RunFrom(NewEndpoint(isServer, limit), actions).Some?
    ensures AllReported(RunFrom(NewEndpoint(isServer, limit), actions).value)
  {
    hide EInv, Act, CanAct, Harmless, Reported;
    if actions == [] {
    } else {
      var front, a := actions[..|actions| - 1], actions[|actions| - 1];
      RunReported(isServer, limit, front);
      RunFromInv(isServer, limit, front);
      var e := RunFrom(NewEndpoint(isServer, limit), front).value;
      MirrorOf(e);
      ActReported(e, a);
    }
  }

  lemma ClosedSaidFin(h: History)
    requires SP.Inv(h) && !h.s.local
    ensures HasFin(Emitted(h))
  {
    hide HasFin, Emitted, SP.CreditInv, SP.DataInv, SP.PairedInv, SP.DeliveryInv, SP.CloseInv, SP.SealInv;
  }

  /** Against any peer and any users, a head is removed only when all it ever had to say has been
      queued, its FIN included, and after its remote half was closed. */
  lemma {:induction false} RemovedHeadsSaidAll(isServer: bool, limit: nat, actions: seq<Action>, id: u32)
    requires RunFrom(NewEndpoint(isServer, limit), actions).Some?
    requires var e := RunFrom(NewEndpoint(isServer, limit), actions).value; id in e.runs && id !in e.sess.streams
    ensures var e := RunFrom(NewEndpoint(isServer, limit), actions).value;
            && EndsWith(Sent(e, id), Emitted(e.runs[id]))
            && HasFin(Emitted(e.runs[id])) && !e.runs[id].s.remote
  {
    hide RunFrom, Items, Sent, HasFin, EndsWith;
    RunReported(isServer, limit, actions);
    HeadsKeepTheirInvariant(isServer, limit, actions, id);
    var e := RunFrom(NewEndpoint(isServer, limit), actions).value;
    assert Reported(e, id);
    assert e.runs[id].popped + e.runs[id].s.outs == e.runs[id].popped;
    ClosedSaidFin(e.runs[id]);
  }
}
