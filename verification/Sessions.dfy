/** The session object: its `PollNext` is a sequence of the model's labels. */
module Sessions {
  import opened Wire
  import opened StreamModel
  import opened SessionModel
  import opened Streams
  import HG = HeadGuarantees
  import Polls
  import T = Transport
  import Codec

  // --- Termination of the head's drain -----------------------------------------------------

  /** How many more events a head can emit if its user does nothing. */
  function Backlog(s: Stream): nat {
    2 * |s.up| + |s.outs| + if s.upClosed && s.local then 1 else 0
  }

  lemma {:induction false} FillBacklog(s: Stream)
    ensures Backlog(Fill(s)) <= Backlog(s)
    decreases |s.up|
  {
    if s.send < CHUNK_CAPACITY || s.up == [] {
    } else {
      FillBacklog(TakeChunk(s));
    }
  }

  /** Every event emitted uses some of it up, so draining a head ends. */
  lemma PollBacklog(s: Stream)
    ensures StreamModel.PollNext(s).1.Ready? ==> Backlog(StreamModel.PollNext(s).0) < Backlog(s)
  {
    hide Fill;
    FillBacklog(s);
  }

  // --- The heads by id ---------------------------------------------------------------------

  /** The map of heads, with the channels between them and their users. */
  class HeadMap {
    var heads: map<u32, YamuxStreamHead>
    ghost var Owned: set<object>  // the heads and their channels

    ghost predicate Valid()
      reads this, Owned
    {
      && this !in Owned
      && forall id | id in heads ::
           && heads[id] in Owned && heads[id].rx in Owned && heads[id].toUser in Owned && heads[id].Valid()
           && heads[id].id == heads[id].rx.id == heads[id].toUser.id == id
    }

    ghost function Repr(): set<object>
      reads this
    {
      {this} + Owned
    }

    /** The state the specification speaks of. */
    ghost function State(): map<u32, Stream>
      reads this, Owned
      requires Valid()
    {
      map id | id in heads :: heads[id].State()
    }

    /** Every head there was is still there. */
    predicate Stay(was: map<u32, YamuxStreamHead>)
      reads this
    {
      forall id | id in was :: id in heads && heads[id] == was[id]
    }

    /** A head there was is still there, or both its channels tell the user that it is not. */
    ghost predicate Kept(was: map<u32, YamuxStreamHead>)
      reads this, set id | id in was :: was[id].rx, set id | id in was :: was[id].toUser
    {
      forall id | id in was ::
        if id in heads then heads[id] == was[id] else was[id].rx.receiverGone && was[id].toUser.senderGone
    }

    constructor ()
      ensures Valid() && heads == map[] && State() == map[] && Owned == {}
    {
      heads, Owned := map[], {};
    }

    lemma Ends()
      requires Valid()
      ensures forall id | id in heads ::
                && heads[id].rx in Owned && heads[id].toUser in Owned && heads[id].rx.id == heads[id].toUser.id == id
    {
    }

    /** A change to the two channels of one head is a change to that head only. */
    twostate lemma OneHead(id: u32)
      requires old(Valid()) && id in old(heads) && unchanged(this)
      requires forall o | o in Owned && o != heads[id].rx && o != heads[id].toUser :: unchanged(o)
      requires heads[id].Valid()
      ensures Valid() && State() == old(State())[id := heads[id].State()]
    {
      hide YamuxStreamHead.State, YamuxStreamHead.Valid;
    }

    method PollHead(id: u32) returns (r: Polled)
      requires Valid() && id in heads
      modifies heads[id]
      ensures Valid() && id in old(State()) && (State()[id], r) == StreamModel.PollNext(old(State())[id])
      ensures State() == old(State())[id := State()[id]]
    {
      hide StreamModel.PollNext, YamuxStreamHead.State, YamuxStreamHead.Valid;
      r := heads[id].PollNext();
    }

    /** An error of the head is ignored. */
    method Feed(id: u32, e: StreamEvent)
      requires Valid() && id in heads
      modifies heads[id], heads[id].toUser`log, heads[id].toUser`senderGone
      ensures Valid() && State() == old(State())[id := OnInputOrSame(old(State())[id], e)]
    {
      hide OnInput, YamuxStreamHead.State, YamuxStreamHead.Valid;
      var _ := heads[id].OnInput(e);
    }

    /** Drops a head and the ends of the channels it holds. */
    method Remove(id: u32)
      requires Valid() && id in heads
      modifies this`heads, heads[id], heads[id].rx`receiverGone, heads[id].toUser`senderGone
      ensures Valid() && State() == old(State()) - {id} && heads == old(heads) - {id}
      ensures old(heads)[id].rx.receiverGone && old(heads)[id].toUser.senderGone
    {
      hide YamuxStreamHead.State, YamuxStreamHead.Valid;
      var head := heads[id];
      heads := heads - {id};
      head.Drop();
    }

    method Insert(head: YamuxStreamHead)
      requires Valid() && head.Valid() && head.id == head.rx.id == head.toUser.id && head.id !in heads
      modifies this
      ensures Valid() && Owned == old(Owned) + {head, head.rx, head.toUser}
      ensures State() == old(State())[head.id := head.State()] && heads == old(heads)[head.id := head]
    {
      hide YamuxStreamHead.State, YamuxStreamHead.Valid;
      heads := heads[head.id := head];
      Owned := Owned + {head, head.rx, head.toUser};
    }

    /** Drops the head an id may already have. */
    method Vacate(id: u32)
      requires Valid()
      modifies this`heads, Owned
      ensures Owned == old(Owned)
      ensures Valid() && State() == old(State()) - {id} && heads == old(heads) - {id}
      ensures id in old(heads) ==> old(heads)[id].rx.receiverGone && old(heads)[id].toUser.senderGone
    {
      hide YamuxStreamHead.State, YamuxStreamHead.Valid;
      if id in heads {
        Remove(id);
      } else {
        assert heads == heads - {id} && State() == State() - {id};
      }
    }

    /** A new head under an id, in the place of any other. */
    method Add(isOpener: bool, id: u32) returns (stream: YamuxStream)
      requires Valid()
      modifies this, Owned
      ensures Valid() && fresh(Owned - old(Owned))
      ensures State() == old(State())[id := NewStream(isOpener)]
      ensures stream.id == id && id in heads && stream.tx == heads[id].rx && stream.rx == heads[id].toUser
      ensures stream.Valid() && stream.State() == NEW_HANDLE && fresh(stream) && stream !in Owned
      ensures heads == old(heads)[id := heads[id]]
      ensures id in old(heads) ==> old(heads)[id].rx.receiverGone && old(heads)[id].toUser.senderGone
    {
      hide Valid, State, HeadMap.Valid, HeadMap.State, HeadMap.Repr;
      hide NewStream, YamuxStreamHead.State, YamuxStreamHead.Valid;
      hide YamuxStream.State, YamuxStream.Valid;
      ghost var before := State();
      Vacate(id);
      var head;
      head, stream := NewPair(isOpener, id);
      Insert(head);
      assert (before - {id})[id := NewStream(isOpener)] == before[id := NewStream(isOpener)];
    }
  }

  // --- The session -------------------------------------------------------------------------

  datatype Outcome = Accepted(stream: YamuxStream) | Ended | NotReady

  /** The wrapped byte stream: what it has taken, what it has given and what it has yet to give, and how
      often it would not take any more. */
  datatype Traffic = Traffic(accepted: seq<byte>, delivered: seq<byte>, incoming: seq<byte>, refused: nat)

  predicate Moved(t: Traffic, u: Traffic, sent: seq<byte>, got: seq<byte>, refusals: nat) {
    && u.refused == t.refused + refusals
    && u.accepted == t.accepted + sent
    && u.delivered == t.delivered + got
    && t.incoming == got + u.incoming
  }

  lemma MovedOn(t: Traffic, u: Traffic, v: Traffic, a: seq<byte>, b: seq<byte>, m: nat,
                c: seq<byte>, d: seq<byte>, n: nat)
    requires Moved(t, u, a, b, m) && Moved(u, v, c, d, n)
    ensures Moved(t, v, a + c, b + d, m + n)
  {
  }

  lemma ThenMoved(s: Session, a: seq<Label>, b: seq<Label>, t: Traffic, u: Traffic, v: Traffic)
    requires Perform(s, a).Some? && Moved(t, u, BytesOut(s, a), BytesIn(a), Refusals(s, a))
    requires Moved(u, v, BytesOut(Perform(s, a).value, b), BytesIn(b), Refusals(Perform(s, a).value, b))
    ensures Perform(s, a + b) == Perform(Perform(s, a).value, b)
    ensures Moved(t, v, BytesOut(s, a + b), BytesIn(a + b), Refusals(s, a + b))
  {
    hide BytesOut, BytesIn, Refusals, Moved, Perform;
    PerformConcat(s, a, b);
    BytesConcat(s, a, b);
    MovedOn(t, u, v, BytesOut(s, a), BytesIn(a), Refusals(s, a),
            BytesOut(Perform(s, a).value, b), BytesIn(b), Refusals(Perform(s, a).value, b));
  }

  lemma Then(s: Session, ls: seq<Label>, l: Label, t: Traffic, u: Traffic, v: Traffic)
    requires Perform(s, ls).Some? && OwnStep(l) && Enabled(Perform(s, ls).value, l)
    requires Moved(t, u, BytesOut(s, ls), BytesIn(ls), Refusals(s, ls))
    requires Moved(u, v, LeavesBy(Perform(s, ls).value, l), ArrivesBy(l), RefusedBy(Perform(s, ls).value, l))
    ensures Perform(s, ls + [l]) == Some(Do(Perform(s, ls).value, l))
    ensures Moved(t, v, BytesOut(s, ls + [l]), BytesIn(ls + [l]), Refusals(s, ls + [l]))
  {
    hide BytesOut, BytesIn, Refusals, Do, Enabled, Perform, Moved, LeavesBy, ArrivesBy, RefusedBy;
    PerformSnoc(s, ls, l);
    MovedOn(t, u, v, BytesOut(s, ls), BytesIn(ls), Refusals(s, ls),
            LeavesBy(Perform(s, ls).value, l), ArrivesBy(l), RefusedBy(Perform(s, ls).value, l));
  }

  lemma ThenQuiet(s: Session, ls: seq<Label>, l: Label, t: Traffic, u: Traffic)
    requires Perform(s, ls).Some? && OwnStep(l) && Enabled(Perform(s, ls).value, l)
    requires Moved(t, u, BytesOut(s, ls), BytesIn(ls), Refusals(s, ls))
    requires LeavesBy(Perform(s, ls).value, l) == [] && ArrivesBy(l) == [] && !l.Offer?
    ensures Perform(s, ls + [l]) == Some(Do(Perform(s, ls).value, l))
    ensures Moved(t, u, BytesOut(s, ls + [l]), BytesIn(ls + [l]), Refusals(s, ls + [l]))
  {
    hide BytesOut, BytesIn, Refusals, Do, Enabled, Perform, LeavesBy, ArrivesBy;
    Then(s, ls, l, t, u, u);
  }

  lemma Unmoved(s: Session, t: Traffic)
    ensures Perform(s, []) == Some(s) && Moved(t, t, BytesOut(s, []), BytesIn([]), Refusals(s, []))
  {
    PerformNothing(s);
  }

  lemma PollGoesOn(ls: seq<Label>, more: seq<Label>)
    requires OnePoll(ls) && Within(more)
    ensures OnePoll(ls + more)
  {
    assert (ls + more)[1..] == ls[1..] + more;
  }

  lemma ThenBegin(s: Session, t: Traffic)
    requires s.phase.Resting? && s.draining.None?
    ensures OnePoll([BeginPoll]) && Perform(s, [BeginPoll]) == Some(s.(phase := Sending(true, false, false)))
    ensures Moved(t, t, BytesOut(s, [BeginPoll]), BytesIn([BeginPoll]), Refusals(s, [BeginPoll]))
  {
    hide Perform, BytesOut, BytesIn, Refusals, Moved;
    Unmoved(s, t);
    ThenQuiet(s, [], BeginPoll, t, t);
    assert [] + [BeginPoll] == [BeginPoll];
  }

  /** The last thing done was to take a frame that opens stream `id`. */
  ghost predicate Accepting(s: Session, ls: seq<Label>, id: u32) {
    && ls != [] && ls[|ls| - 1] == NextFrame && Perform(s, ls[..|ls| - 1]).Some?
    && var read := Perform(s, ls[..|ls| - 1]).value;
    && Codec.NextFrame(read.reader).1.Parsed? && Accepts(read, Codec.NextFrame(read.reader).1.frame)
    && Codec.NextFrame(read.reader).1.frame.id == id
  }

  lemma AcceptingLater(s: Session, before: seq<Label>, ls: seq<Label>, id: u32)
    requires Perform(s, before).Some? && Accepting(Perform(s, before).value, ls, id)
    ensures Accepting(s, before + ls, id)
  {
    hide Do, Enabled, Codec.NextFrame, Accepts;
    var n := |ls| - 1;
    assert (before + ls)[..|before + ls| - 1] == before + ls[..n];
    PerformConcat(s, before, ls[..n]);
  }

  lemma MinusMore<V>(m: map<u32, V>, ids: set<u32>, id: u32)
    ensures m - ids - {id} == m - (ids + {id})
  {
  }

  predicate HeadsOnly(ls: seq<Label>) {
    forall l | l in ls :: l.StopReading? || l.BeginDrain? || l.PollHead? || l.Remove? || l.EndServing?
  }

  lemma HeadsMore(ls: seq<Label>, more: seq<Label>)
    requires HeadsOnly(ls) && HeadsOnly(more)
    ensures HeadsOnly(ls + more) && Within(ls + more)
  {
  }

  lemma WithinMore(ls: seq<Label>, more: seq<Label>)
    requires Within(ls) && Within(more)
    ensures Within(ls + more)
  {
  }

  lemma AcceptingIs(s: Session, ls: seq<Label>, arrived: Session, f: Frame)
    requires Perform(s, ls).Some?
    requires var read := Perform(s, ls).value;
             Codec.NextFrame(read.reader).1 == Codec.Parsed(f) && arrived.streams == read.streams && Accepts(arrived, f)
    ensures Accepting(s, ls + [NextFrame], f.id)
  {
    hide Codec.NextFrame, Perform;
    assert (ls + [NextFrame])[..|ls + [NextFrame]| - 1] == ls;
  }

  /** Draining and removing heads exchanges nothing with the network. */
  lemma {:induction false} HeadsOnlyQuiet(s: Session, ls: seq<Label>)
    requires Perform(s, ls).Some? && HeadsOnly(ls)
    ensures BytesOut(s, ls) == [] && BytesIn(ls) == [] && Refusals(s, ls) == 0
    ensures Perform(s, ls).value.reader == s.reader
  {
    hide StreamModel.PollNext, Codec.NextFrame, Enabled;
    if ls == [] {
    } else {
      var front, l := ls[..|ls| - 1], ls[|ls| - 1];
      assert l in ls && forall k | k in front :: k in ls;
      HeadsOnlyQuiet(s, front);
    }
  }

  lemma SendIs(s: Session)
    requires s.outQueue != [] && s.draining.None? && s.phase.Sending? && s.phase.asked && SendReady(s)
    ensures Enabled(s, StartSend) && LeavesBy(s, StartSend) == [] && ArrivesBy(StartSend) == []
    ensures Do(s, StartSend).phase == s.phase.(sent := true, asked := false)
  {
    hide SendReady, Encode;
  }

  lemma OfferBrings(n: nat)
    ensures ArrivesBy(Offer(n)) == [] && OwnStep(Offer(n))
  {
  }

  lemma ReadyKept(s: Session, p: Phase)
    ensures SendReady(s.(phase := p)) == SendReady(s)
  {
  }

  lemma LeaveIs(s: Session)
    requires s.draining.None? && Leaves(s)
    ensures Enabled(s, Leave) && LeavesBy(s, Leave) == [] && ArrivesBy(Leave) == []
    ensures Do(s, Leave) == s.(phase := AfterLeave(s.phase))
  {
    hide SendReady;
  }

  lemma StopIs(s: Session)
    requires s.draining.None? && s.phase.Reading? && Codec.NextFrame(s.reader).1.NeedMore?
    ensures HeadsOnly([StopReading])
    ensures Enabled(s, StopReading) && Do(s, StopReading) == s.(phase := Serving(s.phase.sent, s.streams.Keys, {}))
  {
    hide Codec.NextFrame;
  }

  lemma EndServingIs(s: Session)
    requires s.draining.None? && s.phase.Serving? && s.phase.todo == {} && s.phase.ended == {}
    ensures HeadsOnly([EndServing])
    ensures Enabled(s, EndServing) && Do(s, EndServing) == s.(phase := Sending(false, s.phase.sent, false))
  {
  }

  lemma RemoveIs(s: Session, id: u32)
    requires s.draining.None? && id in s.streams && StreamModel.PollNext(s.streams[id]).1.Finished?
    requires s.phase.Serving? && s.phase.todo == {} && id in s.phase.ended
    ensures Enabled(s, Remove(id))
    ensures Do(s, Remove(id)) == s.(streams := s.streams - {id}, phase := s.phase.(ended := s.phase.ended - {id}))
  {
  }

  lemma EndIs(s: Session)
    ensures Codec.NextFrame(s.reader).1.Parsed? && EndsRun(Codec.NextFrame(s.reader).1.frame) ==> !Enabled(s, NextFrame)
  {
  }

  lemma TakenIs(s: Session, f: Frame)
    ensures Taken(s, f) == if Accepts(s, f) then Dispatch(s, f).(phase := Resting) else Dispatch(s, f)
  {
  }

  lemma NextFrameIs(s: Session, f: Frame, s': Session)
    requires s.draining.None? && s.phase.Reading?
    requires Codec.NextFrame(s.reader) == (s'.reader, Codec.Parsed(f)) && !EndsRun(f)
    requires s' == s.(reader := s'.reader)
    ensures Enabled(s, NextFrame) && Do(s, NextFrame) == Taken(s', f)
    ensures LeavesBy(s, NextFrame) == [] && ArrivesBy(NextFrame) == []
  {
    hide Codec.NextFrame, Dispatch, Taken;
  }

  lemma BeginIs(s: Session, id: u32)
    requires s.draining.None? && id in s.streams && s.phase.Serving? && id in s.phase.todo
    ensures Enabled(s, BeginDrain(id))
    ensures Perform(s, [BeginDrain(id)])
         == Some(s.(draining := Some(id), phase := s.phase.(todo := s.phase.todo - {id})))
  {
    hide Perform;
    PerformNothing(s);
    PerformSnoc(s, [], BeginDrain(id));
    assert [] + [BeginDrain(id)] == [BeginDrain(id)];
  }

  lemma PollIs(s: Session, id: u32)
    requires s.draining == Some(id) && id in s.streams && s.phase.Serving?
    ensures Enabled(s, PollHead)
    ensures var (st, polled) := StreamModel.PollNext(s.streams[id]);
            && (polled.Ready? ==>
                  Do(s, PollHead) == s.(streams := s.streams[id := st],
                                        outQueue := s.outQueue + [StreamFrame(id, polled.event)]))
            && (polled.Blocked? ==> Do(s, PollHead) == s.(streams := s.streams[id := st], draining := None))
            && (polled.Finished? ==>
                  && st == s.streams[id]
                  && Do(s, PollHead) == s.(streams := s.streams[id := st], draining := None,
                                           phase := s.phase.(ended := s.phase.ended + {id})))
  {
    hide Fill;
  }

  /** The reads a transport makes for one frame, as labels. */
  function ReceiveLabels(segments: seq<Chunk>): seq<Label> {
    if segments == [] then []
    else ReceiveLabels(segments[..|segments| - 1]) + [Receive(segments[|segments| - 1])]
  }

  lemma {:induction false} ReceivesWithin(segments: seq<Chunk>)
    ensures Within(ReceiveLabels(segments))
  {
    if segments == [] {
    } else {
      ReceivesWithin(segments[..|segments| - 1]);
    }
  }

  lemma ReceiveOne(s: Session, ls: seq<Label>, segments: seq<Chunk>, c: Chunk)
    requires s.draining.None? && s.phase.Reading?
    requires Perform(s, ls) == Some(s.(reader := T.Fed(s.reader, segments)))
    requires 1 <= |c| <= READ_BUFFER && Codec.NextFrame(T.Fed(s.reader, segments)).1.NeedMore?
    ensures var after := Perform(s, ls).value;
            Perform(s, ls + [Receive(c)])
            == Some(after.(reader := after.reader.(segments := after.reader.segments + [c])))
    ensures BytesOut(s, ls + [Receive(c)]) == BytesOut(s, ls) && BytesIn(ls + [Receive(c)]) == BytesIn(ls) + c
    ensures Refusals(s, ls + [Receive(c)]) == Refusals(s, ls)
  {
    hide Codec.NextFrame, Perform, BytesOut, BytesIn, Refusals;
    PerformSnoc(s, ls, Receive(c));
  }

  lemma {:induction false} ReceiveMoves(s: Session, segments: seq<Chunk>)
    requires s.draining.None? && s.phase.Reading? && T.Needed(s.reader, segments)
    ensures var ls := ReceiveLabels(segments);
            && Perform(s, ls) == Some(s.(reader := T.Fed(s.reader, segments)))
            && BytesOut(s, ls) == [] && BytesIn(ls) == Flat(segments) && Refusals(s, ls) == 0
  {
    hide T.Needed, Codec.NextFrame, Perform, BytesOut, BytesIn, Refusals;
    PerformNothing(s);
    if segments == [] {
      assert s.reader.segments + [] == s.reader.segments;
    } else {
      var n := |segments| - 1;
      T.NeededPrefix(s.reader, segments);
      ReceiveMoves(s, segments[..n]);
      ReceiveOne(s, ReceiveLabels(segments[..n]), segments[..n], segments[n]);
      assert T.Fed(s.reader, segments[..n]).segments + [segments[n]] == T.Fed(s.reader, segments).segments;
    }
  }

  lemma OpenIs(s: Session)
    requires s.draining.None? && s.phase.Resting?
    ensures Do(s, OpenStream) == s.(streams := s.streams[s.nextId := NewStream(true)], nextId := NextId(s.nextId))
  {
  }

  lemma DrainedFrom(accepted: seq<byte>, buffer: seq<byte>, accepted': seq<byte>, buffer': seq<byte>)
    requires accepted + buffer == accepted' + buffer' && accepted <= accepted'
    ensures |buffer'| <= |buffer| && buffer' == buffer[|buffer| - |buffer'|..]
    ensures accepted' == accepted + buffer[..|buffer| - |buffer'|]
  {
    var out := accepted'[|accepted|..];
    assert accepted + buffer == accepted + (out + buffer');
    assert buffer == (accepted + buffer)[|accepted|..] == out + buffer';
  }

  /** What left the buffer is what the network took. */
  lemma OfferIs(s: Session, left: seq<byte>, t: Traffic, u: Traffic)
    requires s.draining.None? && Offers(s) && t.delivered == u.delivered && t.incoming == u.incoming
    requires t.accepted + s.buffer == u.accepted + left && t.accepted <= u.accepted
    requires u.refused == t.refused + if left == [] then 0 else 1
    ensures |left| <= |s.buffer|
    ensures var l := Offer(|s.buffer| - |left|);
            && Enabled(s, l) && Do(s, l) == s.(buffer := left, phase := AfterOffer(s.phase))
            && Moved(t, u, LeavesBy(s, l), ArrivesBy(l), RefusedBy(s, l))
  {
    DrainedFrom(t.accepted, s.buffer, u.accepted, left);
  }

  lemma AskedAsSaid(s: Session, ls: seq<Label>, t: Session, ended: bool)
    requires s.phase.Resting? && OnePoll(ls) && Perform(s, ls).Some?
    requires !ended ==> Perform(s, ls) == Some(t) && t.phase.Resting?
    ensures ls != []
    ensures !ended ==>
              (Polls.Asks(ls) <==> s.outQueue != [] || (Polls.Queues(s, ls) && ls[|ls| - 1] != NextFrame))
  {
    hide Perform, Polls.Asks, Polls.Queues;
    if !ended {
      Polls.PollAsksExactly(s, ls);
    }
  }

  /** With nothing to do and nothing arriving, a poll exchanges nothing. */
  lemma LeftAlone(s: Session, ls: seq<Label>, t: Traffic, u: Traffic)
    requires s.phase.Resting? && Polls.Idle(s) && Perform(s, ls).Some? && t.incoming == []
    requires Moved(t, u, BytesOut(s, ls), BytesIn(ls), Refusals(s, ls))
    ensures u == t && Perform(s, ls).value.buffer == s.buffer && Perform(s, ls).value.outQueue == []
  {
    hide Perform, BytesOut, BytesIn, Refusals, Codec.NextFrame, PollNext;
    assert BytesIn(ls) == [];
    Polls.IdlePoll(s, ls);
  }

  /** Reading is over for good: the peer says so, its bytes make no sense, or there are none left and
      the byte stream has said so once more. */
  predicate Final(next: Codec.Next, ends: int) {
    match next
    case Parsed(f) => f.SessionFrame? && f.control.GoAway? && ends == 0
    case UnknownType(_) => ends == 0
    case NeedMore => ends == 1
  }

  /** What is left of a queue when some of it has been sent. */
  predicate LeftOf(left: seq<Frame>, queue: seq<Frame>) {
    |left| <= |queue| && left == queue[|queue| - |left|..]
  }

  lemma AllLeft(queue: seq<Frame>)
    ensures LeftOf(queue, queue)
  {
  }

  lemma LeftIsShorter(left: seq<Frame>, queue: seq<Frame>)
    requires LeftOf(left, queue)
    ensures |left| <= |queue|
    ensures left != [] ==> LeftOf(left[1..], queue)
  {
  }

  class YamuxSession {
    const transport: T.YamuxTransport
    const streams: HeadMap

    var nextStreamId: u32
    var outQueue: seq<Frame>
    ghost var Draining: Option<u32>
    ghost var At: Phase

    ghost predicate Valid()
      reads this, streams, streams.Owned, transport, transport.writer, transport.reader,
            transport.writer.buffer, transport.reader.buffer,
            transport.writer.buffer.Repr, transport.reader.buffer.Repr
    {
      && transport.Valid() && streams.Valid()
      && streams.Repr() !! transport.Repr() && this !in streams.Repr() && this !in transport.Repr()
    }

    /** The state the specification speaks of. */
    ghost function State(): Session
      reads this, streams, streams.Owned, transport, transport.writer, transport.reader,
            transport.writer.buffer, transport.reader.buffer,
            transport.writer.buffer.Repr, transport.reader.buffer.Repr
      requires Valid()
    {
      Session(streams.State(), nextStreamId, outQueue, transport.Buffered(), transport.limit,
              transport.reader.State(), Draining, At)
    }

    lemma Fields()
      requires Valid()
      ensures State().streams == streams.State() && State().streams.Keys == streams.heads.Keys
      ensures State().draining == Draining && State().outQueue == outQueue && State().nextId == nextStreamId
      ensures State().phase == At
    {
    }

    lemma Ends()
      requires Valid()
      ensures forall id | id in streams.heads ::
                && streams.heads[id].rx in streams.Owned && streams.heads[id].rx.id == id
                && streams.heads[id].toUser in streams.Owned && streams.heads[id].toUser.id == id
    {
      streams.Ends();
    }

    lemma Apart()
      requires Valid()
      ensures streams.Owned !! transport.Repr() && streams !in transport.Repr()
    {
    }

    ghost function Network(): Traffic
      reads transport.stream
    {
      Traffic(transport.stream.accepted, transport.stream.delivered, transport.stream.incoming,
              transport.stream.refused)
    }

    /** What has gone to and come from the network since is what the labels say. */
    ghost predicate Exchanged(before: Traffic, s: Session, ls: seq<Label>)
      reads transport.stream
    {
      Moved(before, Network(), BytesOut(s, ls), BytesIn(ls), Refusals(s, ls))
    }

    /** What a user does to the channels of its head is all that changes. */
    twostate lemma OneHead(id: u32)
      requires old(Valid()) && id in old(streams.heads) && unchanged(this) && unchanged(streams)
      requires forall o | o in streams.Owned && o != streams.heads[id].rx && o != streams.heads[id].toUser ::
                 unchanged(o)
      requires forall o | o in old(transport.Repr()) :: unchanged(o)
      requires streams.heads[id].Valid()
      ensures Valid()
      ensures State() == old(State()).(streams := old(State()).streams[id := streams.heads[id].State()])
    {
      hide T.YamuxTransport.Valid, HeadMap.Valid, HeadMap.State, YamuxStreamHead.State, YamuxStreamHead.Valid;
      streams.OneHead(id);
    }

    /** The head a handle is joined to, and what there is around it. */
    lemma HeadOf(id: u32)
      requires Valid() && id in streams.heads
      ensures id in State().streams && State().streams[id] == streams.heads[id].State() && streams.heads[id].Valid()
      ensures streams.heads[id] in streams.Owned
      ensures streams.heads[id].rx in streams.Owned && streams.heads[id].toUser in streams.Owned
      ensures streams.Owned !! transport.Repr() && this !in streams.Owned && streams !in streams.Owned
    {
      hide T.YamuxTransport.Valid, YamuxStreamHead.State, YamuxStreamHead.Valid;
    }

    /** A handle and a head of this session hold the two ends of the same channels. */
    ghost predicate Joined(stream: YamuxStream)
      reads streams, stream, transport, transport.writer, transport.reader,
            transport.writer.buffer, transport.reader.buffer
    {
      && stream.Valid() && stream.id in streams.heads && stream !in streams.Owned && stream !in transport.Repr()
      && stream.tx == streams.heads[stream.id].rx && stream.rx == streams.heads[stream.id].toUser
    }

    /** A handle just made. */
    ghost predicate Serves(stream: YamuxStream)
      reads streams, stream, transport, transport.writer, transport.reader,
            transport.writer.buffer, transport.reader.buffer
    {
      Joined(stream) && stream.State() == NEW_HANDLE
    }

    /** How much reading is left to do at most. */
    ghost function Unread(): nat
      reads transport, transport.stream, transport.reader, transport.reader.buffer
    {
      2 * transport.Unparsed() + if transport.reader.pending.Some? then 1 else 0
    }

    /** What concerns the heads only leaves the transport alone. */
    twostate predicate TransportKept()
      reads transport, transport.stream, transport.reader, transport.reader.buffer,
            transport.writer, transport.writer.buffer
    {
      && transport.Repr() == old(transport.Repr()) && unchanged(transport.stream)
      && transport.reader.buffer.Repr == old(transport.reader.buffer.Repr)
      && transport.writer.buffer.Repr == old(transport.writer.buffer.Repr)
      && Unread() == old(Unread())
    }

    /** The byte stream has not been read from. */
    twostate predicate NotRead()
      reads transport.stream
    {
      transport.stream.waited == old(transport.stream.waited) && transport.stream.ended == old(transport.stream.ended)
    }

    constructor (io: T.Io, isServer: bool, maxWriteBuffer: nat)
      ensures Valid() && State() == NewSession(isServer, maxWriteBuffer) && Draining.None? && At.Resting?
      ensures transport.stream == io && fresh(transport.Repr() - {io}) && fresh(streams.Repr())
    {
      hide T.YamuxTransport.Valid, Flat;
      transport := new T.YamuxTransport(io, maxWriteBuffer);
      streams := new HeadMap();
      nextStreamId, outQueue := if isServer then 2 else 1, [];
      Draining, At := None, Resting;
    }

    method TakeId() returns (id: u32)
      requires Valid()
      modifies this`nextStreamId
      ensures Valid() && id == old(nextStreamId) && State() == old(State()).(nextId := NextId(id))
    {
      hide T.YamuxTransport.Valid, HeadMap.Valid, HeadMap.State;
      id := nextStreamId;
      var next := (nextStreamId + 2) % 0x1_0000_0000;
      nextStreamId := if next == 0 then 2 else next;
    }

    method AddHead(isOpener: bool, id: u32) returns (stream: YamuxStream)
      requires Valid()
      modifies streams, streams.Owned
      ensures TransportKept() && unchanged(this)
      ensures Valid() && fresh(streams.Owned - old(streams.Owned))
      ensures State() == old(State()).(streams := old(State()).streams[id := NewStream(isOpener)])
      ensures Serves(stream) && fresh(stream) && stream.id == id
      ensures streams.heads == old(streams.heads)[id := streams.heads[id]]
      ensures id in old(streams.heads) ==>
                old(streams.heads)[id].rx.receiverGone && old(streams.heads)[id].toUser.senderGone
    {
      hide T.YamuxTransport.Valid, HeadMap.Valid, HeadMap.State, NewStream, YamuxStream.State, YamuxStream.Valid;
      stream := streams.Add(isOpener, id);
    }

    method OpenStream() returns (stream: YamuxStream)
      requires Valid() && Draining.None? && At.Resting?
      modifies this`nextStreamId, streams, streams.Owned
      ensures Valid() && fresh(streams.Owned - old(streams.Owned)) && TransportKept()
      ensures Enabled(old(State()), SessionModel.OpenStream) && State() == Do(old(State()), SessionModel.OpenStream)
      ensures Serves(stream) && fresh(stream) && stream.id == old(nextStreamId)
      ensures streams.heads == old(streams.heads)[stream.id := streams.heads[stream.id]]
      ensures stream.id in old(streams.heads) ==>
                old(streams.heads)[stream.id].rx.receiverGone && old(streams.heads)[stream.id].toUser.senderGone
    {
      hide Valid, State, NewStream, Do, NextId;
      hide YamuxStream.State, YamuxStream.Valid;
      Fields();
      OpenIs(State());
      var id := TakeId();
      stream := AddHead(true, id);
    }

    // --- Sending -----------------------------------------------------------------------------

    /** What grows the buffers grows the transport with new objects only. */
    twostate lemma Grown()
      requires fresh(transport.writer.buffer.Repr - old(transport.writer.buffer.Repr))
      requires fresh(transport.reader.buffer.Repr - old(transport.reader.buffer.Repr))
      ensures fresh(transport.Repr() - old(transport.Repr()))
    {
    }

    ghost method Goto(p: Phase)
      requires Valid()
      modifies this`At
      ensures Valid() && At == p && State() == old(State()).(phase := p)
      ensures transport.reader.buffer.Repr == old(transport.reader.buffer.Repr)
      ensures transport.writer.buffer.Repr == old(transport.writer.buffer.Repr)
    {
      hide T.YamuxTransport.Valid, HeadMap.Valid, HeadMap.State;
      At := p;
    }

    /** One readiness check: the byte stream is offered what is buffered. */
    method CheckReady() returns (ready: bool, ghost n: nat)
      requires Valid() && Draining.None? && Offers(State()) && At.Sending?
      modifies this`At
      modifies transport.stream`accepted, transport.stream`refused, transport.stream`idle, transport.writer.buffer.Repr
      ensures NotRead()
      ensures unchanged(streams) && transport.reader.buffer.Repr == old(transport.reader.buffer.Repr)
      ensures transport.writer.buffer.Repr == old(transport.writer.buffer.Repr)
      ensures Enabled(old(State()), Offer(n)) && Valid() && State() == Do(old(State()), Offer(n))
      ensures Moved(old(Network()), Network(), LeavesBy(old(State()), Offer(n)), [], RefusedBy(old(State()), Offer(n)))
      ensures At == AfterOffer(old(At)) && Draining == old(Draining) && outQueue == old(outQueue)
      ensures State().streams == old(State()).streams && State().reader == old(State()).reader
      ensures ready <==> SendReady(State())
    {
      hide T.YamuxTransport.Valid, Flat, HeadMap.Valid, HeadMap.State, Do, Moved, Enabled;
      ghost var before, first := State(), Network();
      ready := transport.PollReady();
      OfferIs(before, State().buffer, first, Network());
      n := |before.buffer| - |State().buffer|;
      At := AfterOffer(At);
    }

    /** The offer at the end of a call that has sent something. */
    method Flush() returns (ghost n: nat)
      requires Valid() && Draining.None? && At.Flushing?
      modifies this`At
      modifies transport.stream`accepted, transport.stream`refused, transport.stream`idle, transport.writer.buffer.Repr
      ensures NotRead()
      ensures unchanged(streams) && transport.reader.buffer.Repr == old(transport.reader.buffer.Repr)
      ensures transport.writer.buffer.Repr == old(transport.writer.buffer.Repr)
      ensures Enabled(old(State()), Offer(n)) && Valid() && State() == Do(old(State()), Offer(n))
      ensures State() == old(State()).(buffer := State().buffer, phase := Resting)
      ensures Moved(old(Network()), Network(), LeavesBy(old(State()), Offer(n)), [], RefusedBy(old(State()), Offer(n)))
      ensures At.Resting? && Draining == old(Draining) && outQueue == old(outQueue)
    {
      hide T.YamuxTransport.Valid, Flat, HeadMap.Valid, HeadMap.State, Do, Moved, Enabled;
      ghost var before, first := State(), Network();
      var _ := transport.PollWrite();
      OfferIs(before, State().buffer, first, Network());
      n := |before.buffer| - |State().buffer|;
      At := Resting;
    }

    method SendOne()
      requires Valid() && outQueue != [] && Enabled(State(), StartSend)
      modifies this`At, this`outQueue, transport.writer.buffer.Repr
      ensures unchanged(streams) && unchanged(transport.stream)
      ensures transport.reader.buffer.Repr == old(transport.reader.buffer.Repr)
      ensures Valid() && State() == Do(old(State()), StartSend) && outQueue == old(outQueue)[1..]
      ensures State().streams == old(State()).streams && State().reader == old(State()).reader
      ensures At == old(At).(sent := true, asked := false)
      ensures Draining == old(Draining) && fresh(transport.writer.buffer.Repr - old(transport.writer.buffer.Repr))
    {
      hide T.YamuxTransport.Valid, Flat, Encode, HeadMap.Valid, HeadMap.State;
      var out := outQueue[0];
      outQueue := outQueue[1..];
      transport.StartSend(out);
      At := At.(sent := true, asked := false);
    }

    /** One turn of a sending loop: the byte stream is asked, and a frame goes if it is ready. */
    method SendTurn(ghost first: bool, ghost sent: bool) returns (ready: bool, ghost ls: seq<Label>)
      requires Valid() && Draining.None? && At == Sending(first, sent, false) && outQueue != []
      modifies this`At, this`outQueue
      modifies transport.stream`accepted, transport.stream`refused, transport.stream`idle, transport.writer.buffer.Repr
      ensures NotRead()
      ensures unchanged(streams) && transport.reader.buffer.Repr == old(transport.reader.buffer.Repr)
      ensures fresh(transport.writer.buffer.Repr - old(transport.writer.buffer.Repr))
      ensures Valid() && Draining.None? && At == Sending(first, sent || ready, !ready)
      ensures Perform(old(State()), ls) == Some(State()) && Exchanged(old(Network()), old(State()), ls) && Within(ls)
      ensures outQueue == if ready then old(outQueue)[1..] else old(outQueue)
      ensures ready || !SendReady(State())
      ensures State().streams == old(State()).streams && State().reader == old(State()).reader
    {
      hide Valid, State, HeadMap.Valid, HeadMap.State, HeadMap.Repr;
      hide Do, Perform, Enabled, SendReady, BytesOut, BytesIn, Refusals, LeavesBy, ArrivesBy, Moved;
      hide T.YamuxTransport.Repr, T.YamuxTransport.Valid;
      ghost var start, begun := State(), Network();
      Unmoved(start, begun);
      Fields();
      ghost var n;
      ready, n := CheckReady();
      Fields();
      OfferBrings(n);
      Then(start, [], Offer(n), begun, begun, Network());
      ls := [] + [Offer(n)];
      if ready {
        SendIs(State());
        ThenQuiet(start, ls, StartSend, begun, Network());
        SendOne();
        ls := ls + [StartSend];
      }
    }

    /** Frames go out as long as the transport is ready for another. */
    method SendLoop(sent: bool, ghost first: bool) returns (sentMore: bool, ghost ls: seq<Label>)
      requires Valid() && Draining.None? && At == Sending(first, sent, false)
      modifies this`At, this`outQueue
      modifies transport.stream`accepted, transport.stream`refused, transport.stream`idle, transport.writer.buffer.Repr
      ensures NotRead()
      ensures unchanged(streams) && transport.reader.buffer.Repr == old(transport.reader.buffer.Repr)
      ensures fresh(transport.writer.buffer.Repr - old(transport.writer.buffer.Repr))
      ensures Valid() && Draining.None? && At.Sending? && At.first == first && At.sent == sentMore
      ensures if At.asked then !SendReady(State()) else outQueue == []
      ensures Perform(old(State()), ls) == Some(State()) && Exchanged(old(Network()), old(State()), ls) && Within(ls)
      ensures sentMore <==> sent || |outQueue| < |old(outQueue)|
      ensures LeftOf(outQueue, old(outQueue))
      ensures State().streams == old(State()).streams && State().reader == old(State()).reader
    {
      hide Valid, State, HeadMap.Valid, HeadMap.State, HeadMap.Repr;
      hide Do, Perform, Enabled, SendReady, BytesOut, BytesIn, Refusals, LeavesBy, ArrivesBy, Moved, LeftOf;
      hide T.YamuxTransport.Repr, T.YamuxTransport.Valid;
      sentMore, ls := sent, [];
      ghost var start, begun := State(), Network();
      Unmoved(start, begun);
      AllLeft(outQueue);
      while outQueue != []
        invariant unchanged(streams) && transport.reader.buffer.Repr == old(transport.reader.buffer.Repr)
        invariant Valid() && Draining.None? && At == Sending(first, sentMore, false)
        invariant Perform(start, ls) == Some(State()) && Exchanged(begun, start, ls) && Within(ls)
        invariant State().streams == old(State()).streams && State().reader == old(State()).reader
        invariant LeftOf(outQueue, old(outQueue)) && NotRead()
        invariant sentMore <==> sent || |outQueue| < |old(outQueue)|
        invariant fresh(transport.writer.buffer.Repr - old(transport.writer.buffer.Repr))
        decreases |outQueue|
      {
        ghost var before := Network();
        LeftIsShorter(outQueue, old(outQueue));
        var ready, more := SendTurn(first, sentMore);
        ThenMoved(start, ls, more, begun, before, Network());
        ls := ls + more;
        if !ready {
          return;
        }
        sentMore := true;
      }
    }

    ghost method LeaveLoop()
      requires Valid() && Draining.None? && At.Sending? && (if At.asked then !SendReady(State()) else outQueue == [])
      modifies this`At
      ensures Valid() && Draining.None? && At == AfterLeave(old(At)) && outQueue == old(outQueue)
      ensures transport.reader.buffer.Repr == old(transport.reader.buffer.Repr)
      ensures transport.writer.buffer.Repr == old(transport.writer.buffer.Repr)
      ensures Enabled(old(State()), Leave) && State() == Do(old(State()), Leave)
      ensures LeavesBy(old(State()), Leave) == [] && ArrivesBy(Leave) == []
      ensures State() == old(State()).(phase := AfterLeave(old(At)))
      ensures SendReady(State()) == SendReady(old(State()))
    {
      hide Valid, State, HeadMap.Valid, HeadMap.State, HeadMap.Repr, T.YamuxTransport.Valid;
      hide Do, Enabled, SendReady, LeavesBy, ArrivesBy;
      Fields();
      LeaveIs(State());
      ReadyKept(State(), AfterLeave(At));
      Goto(AfterLeave(At));
    }

    // --- Receiving ---------------------------------------------------------------------------

    method FeedHead(id: u32, e: StreamEvent)
      requires Valid() && id in streams.heads
      modifies streams.Owned
      ensures Valid() && unchanged(streams) && TransportKept() && unchanged(this)
      ensures State() == old(State()).(streams :=
                old(State()).streams[id := OnInputOrSame(old(State()).streams[id], e)])
    {
      hide T.YamuxTransport.Valid, OnInputOrSame, HeadMap.State;
      streams.Feed(id, e);
    }

    /** A stream the peer opens, with the event that opens it. */
    method AcceptHead(id: u32, e: StreamEvent) returns (stream: YamuxStream)
      requires Valid() && id !in streams.heads
      modifies streams, streams.Owned
      ensures TransportKept() && Draining == old(Draining) && At == old(At)
      ensures Valid() && fresh(streams.Owned - old(streams.Owned)) && streams.Stay(old(streams.heads))
      ensures State() == old(State()).(streams := old(State()).streams[id := OnInputOrSame(NewStream(false), e)])
      ensures Serves(stream) && fresh(stream) && stream !in streams.Owned && stream.id == id
      ensures streams.heads.Keys == old(streams.heads.Keys) + {id} && outQueue == old(outQueue)
    {
      hide Valid, State, NewStream, OnInputOrSame;
      hide YamuxStream.State, YamuxStream.Valid;
      stream := AddHead(false, id);
      FeedHead(id, e);
    }

    method Enqueue(f: Frame)
      requires Valid()
      modifies this`outQueue
      ensures Valid() && State() == old(State()).(outQueue := old(State()).outQueue + [f])
    {
      hide T.YamuxTransport.Valid, HeadMap.Valid, HeadMap.State;
      outQueue := outQueue + [f];
    }

    /** What a frame does, short of ending the run. */
    method DispatchFrame(f: Frame) returns (r: Option<YamuxStream>)
      requires Valid() && !EndsRun(f)
      modifies this`outQueue, streams, streams.Owned
      ensures TransportKept() && Draining == old(Draining) && At == old(At)
      ensures Valid() && fresh(streams.Owned - old(streams.Owned)) && streams.Stay(old(streams.heads))
      ensures State() == Dispatch(old(State()), f)
      ensures r.Some? <==> Accepts(old(State()), f)
      ensures r.Some? <==>
                && f.StreamFrame? && f.id !in old(streams.heads)
                && (f.event.Data? || f.event.WindowUpdate?) && f.event.flags.syn
      ensures r.Some? ==> Serves(r.value) && fresh(r.value) && r.value.id == f.id
      ensures streams.heads.Keys == old(streams.heads.Keys) + if r.Some? then {f.id} else {}
      ensures outQueue == old(outQueue)
                + if f.SessionFrame? && f.control.Ping? && f.control.pingFlags.syn then
                    [SessionFrame(Ping(Flags(false, true, false, false), f.control.code))]
                  else []
    {
      hide T.YamuxTransport.Valid, HeadMap.Valid, HeadMap.State, NewStream, OnInputOrSame;
      hide YamuxStream.State, YamuxStream.Valid;
      Fields();
      match f
      case SessionFrame(Ping(flags, code)) =>
        if flags.syn {
          Enqueue(SessionFrame(Ping(ACK, code)));
        }
        return None;
      case StreamFrame(id, e) =>
        if id in streams.heads {
          FeedHead(id, e);
          return None;
        } else if !e.DataChunk? && e.flags.syn {
          var stream := AcceptHead(id, e);
          return Some(stream);
        }
        return None;
    }

    /** One frame off the transport, still to be dispatched. */
    method ReceiveFrame() returns (event: T.Event, ghost ls: seq<Label>, ghost read: Session)
      requires Valid() && Draining.None? && At.Reading?
      modifies transport.stream`incoming, transport.stream`delivered, transport.stream`waited, transport.stream`ended
      modifies transport.reader, transport.reader.buffer.Repr
      ensures fresh(transport.Repr() - old(transport.Repr())) && unchanged(streams)
      ensures Valid() && unchanged(this) && fresh(transport.reader.buffer.Repr - old(transport.reader.buffer.Repr))
      ensures Perform(old(State()), ls) == Some(read) && read.draining.None?
      ensures Exchanged(old(Network()), old(State()), ls) && Within(ls)
      ensures State() == read.(reader := State().reader)
      ensures event.Waiting? ==> State() == read && Codec.NextFrame(read.reader).1.NeedMore?
      ensures !event.Arrived? ==> !Enabled(read, NextFrame)
      ensures transport.stream.waited == old(transport.stream.waited) + if event.Waiting? then 1 else 0
      ensures transport.stream.ended == old(transport.stream.ended) + if event.Closed? then 1 else 0
      ensures event.Closed? ==> Codec.NextFrame(read.reader).1.NeedMore?
      ensures event.ParseError? ==> Codec.NextFrame(read.reader).1.UnknownType?
      ensures event.Arrived? ==>
                && Codec.NextFrame(read.reader) == (State().reader, Codec.Parsed(event.frame))
                && Unread() < old(Unread())
    {
      hide T.YamuxTransport.Valid, Flat, Codec.NextFrame, HeadMap.Valid, HeadMap.State;
      ghost var before := State();
      ghost var received;
      event, received := transport.PollNext();
      ls := ReceiveLabels(received);
      ReceiveMoves(before, received);
      ReceivesWithin(received);
      read := before.(reader := T.Fed(before.reader, received));
    }

    /** What reading ended with, after the labels `ls` from `start`. */
    ghost predicate ReadAs(start: Session, r: Outcome, ls: seq<Label>)
      reads this, streams, streams.Owned, transport, transport.writer, transport.reader,
            transport.writer.buffer, transport.reader.buffer,
            transport.writer.buffer.Repr, transport.reader.buffer.Repr
      reads if r.Accepted? then {r.stream} else {}
      requires Valid()
    {
      && Perform(start, ls).Some? && Within(ls)
      && match r
         case Ended =>
           && !Enabled(Perform(start, ls).value, NextFrame)
           && State() == Perform(start, ls).value.(reader := State().reader)
         case NotReady => Perform(start, ls) == Some(State()) && Codec.NextFrame(State().reader).1.NeedMore?
         case Accepted(stream) =>
           Perform(start, ls) == Some(State()) && Accepting(start, ls, stream.id) && Serves(stream)
    }

    lemma ReadLater(start: Session, before: seq<Label>, r: Outcome, ls: seq<Label>)
      requires Valid() && Within(before) && Perform(start, before).Some? && ReadAs(Perform(start, before).value, r, ls)
      ensures ReadAs(start, r, before + ls)
    {
      hide State, Valid, Accepting, Do, Enabled, Codec.NextFrame, Serves;
      PerformConcat(start, before, ls);
      if r.Accepted? {
        AcceptingLater(start, before, ls, r.stream.id);
      }
    }

    lemma PollReads(start: Session, before: seq<Label>, r: Outcome, ls: seq<Label>)
      requires Valid() && OnePoll(before) && Perform(start, before).Some?
      requires ReadAs(Perform(start, before).value, r, ls)
      ensures OnePoll(before + ls) && Perform(start, before + ls).Some?
      ensures r.Ended? ==>
                var end := Perform(start, before + ls).value;
                !Enabled(end, NextFrame) && State() == end.(reader := State().reader)
      ensures r.NotReady? ==>
                Perform(start, before + ls) == Some(State()) && Codec.NextFrame(State().reader).1.NeedMore?
      ensures r.Accepted? ==>
                Perform(start, before + ls) == Some(State()) && Accepting(start, before + ls, r.stream.id)
                && Serves(r.stream)
    {
      hide State, Valid, Accepting, Do, Enabled, Codec.NextFrame, Serves, OnePoll;
      PollGoesOn(before, ls);
      PerformConcat(start, before, ls);
      if r.Accepted? {
        AcceptingLater(start, before, ls, r.stream.id);
      }
    }

    /** One frame taken by the session in state `read`: it is dispatched, and a new stream ends the call. */
    method TakeFrame(f: Frame, ghost read: Session) returns (stream: Option<YamuxStream>)
      requires Valid() && Draining.None? && At.Reading? && !EndsRun(f)
      requires Codec.NextFrame(read.reader) == (State().reader, Codec.Parsed(f))
      requires State() == read.(reader := State().reader)
      modifies this`At, this`outQueue, streams, streams.Owned
      ensures TransportKept() && Draining.None? && At == if stream.Some? then Resting else old(At)
      ensures Valid() && fresh(streams.Owned - old(streams.Owned)) && streams.Stay(old(streams.heads))
      ensures Enabled(read, NextFrame) && State() == Do(read, NextFrame)
      ensures LeavesBy(read, NextFrame) == [] && ArrivesBy(NextFrame) == []
      ensures stream.Some? <==> Accepts(old(State()), f)
      ensures stream.Some? ==> Serves(stream.value) && fresh(stream.value) && stream.value.id == f.id
      ensures streams.heads.Keys == old(streams.heads.Keys) + if stream.Some? then {f.id} else {}
    {
      hide Valid, State, HeadMap.Valid, HeadMap.State, HeadMap.Repr;
      hide Do, Dispatch, Taken, Enabled, Codec.NextFrame, Accepts, LeavesBy, ArrivesBy;
      hide YamuxStream.State, YamuxStream.Valid;
      Fields();
      NextFrameIs(read, f, State());
      TakenIs(State(), f);
      stream := DispatchFrame(f);
      if stream.Some? {
        Goto(Resting);
      }
    }

    /** At most one inbound frame; reading goes on after it unless something came of it. */
    method ReadTurn() returns (r: Option<Outcome>, ghost ls: seq<Label>)
      requires Valid() && Draining.None? && At.Reading?
      modifies this`At, this`outQueue, streams, streams.Owned
      modifies transport.stream`incoming, transport.stream`delivered, transport.stream`waited, transport.stream`ended
      modifies transport.reader, transport.reader.buffer.Repr
      ensures fresh(transport.Repr() - old(transport.Repr()))
      ensures fresh(transport.reader.buffer.Repr - old(transport.reader.buffer.Repr))
      ensures Valid() && fresh(streams.Owned - old(streams.Owned)) && streams.Stay(old(streams.heads))
      ensures Draining.None? && Exchanged(old(Network()), old(State()), ls)
      ensures r.None? ==> Perform(old(State()), ls) == Some(State()) && Unread() < old(Unread()) && Within(ls)
      ensures At == if r.Some? && r.value.Accepted? then Resting else old(At)
      ensures r.Some? ==> ReadAs(old(State()), r.value, ls) && (r.value.Accepted? ==> fresh(r.value.stream))
      ensures streams.heads.Keys == old(streams.heads.Keys)
                + if r.Some? && r.value.Accepted? then {r.value.stream.id} else {}
      ensures transport.stream.waited == old(transport.stream.waited) + if r == Some(NotReady) then 1 else 0
      ensures if r == Some(Ended) then
                Final(Codec.NextFrame(Perform(old(State()), ls).value.reader).1,
                      transport.stream.ended - old(transport.stream.ended))
              else transport.stream.ended == old(transport.stream.ended)
    {
      hide Valid, State, HeadMap.Valid, HeadMap.State, HeadMap.Repr;
      hide Do, Perform, Dispatch, Taken, Enabled, Codec.NextFrame, Serves;
      hide BytesOut, BytesIn, Refusals, LeavesBy, ArrivesBy, Moved;
      hide Accepting, Within, Accepts;
      ghost var start := State();
      var event, more, read := ReceiveFrame();
      ls := more;
      if event.Waiting? {
        return Some(NotReady), ls;
      }
      if !event.Arrived? || EndsRun(event.frame) {
        EndIs(read);
        return Some(Ended), ls;
      }
      ghost var arrived := State();
      Fields();
      var stream := TakeFrame(event.frame, read);
      ThenQuiet(start, ls, NextFrame, old(Network()), Network());
      ls := ls + [NextFrame];
      WithinMore(more, [NextFrame]);
      if stream.Some? {
        AcceptingIs(start, more, arrived, event.frame);
        return Some(Accepted(stream.value)), ls;
      }
      return None, ls;
    }

    /** Inbound frames one after another, until none is there, one opens a stream, or one ends
        the run. */
    method ReadLoop() returns (r: Outcome, ghost ls: seq<Label>)
      requires Valid() && Draining.None? && At.Reading?
      modifies this`At, this`outQueue, streams, streams.Owned
      modifies transport.stream`incoming, transport.stream`delivered, transport.stream`waited, transport.stream`ended
      modifies transport.reader, transport.reader.buffer.Repr
      ensures fresh(transport.Repr() - old(transport.Repr()))
      ensures fresh(transport.reader.buffer.Repr - old(transport.reader.buffer.Repr))
      ensures Valid() && fresh(streams.Owned - old(streams.Owned)) && streams.Stay(old(streams.heads))
      ensures Draining.None? && Exchanged(old(Network()), old(State()), ls)
      ensures At == if r.Accepted? then Resting else old(At)
      ensures ReadAs(old(State()), r, ls) && (r.Accepted? ==> fresh(r.stream))
      ensures streams.heads.Keys == old(streams.heads.Keys) + if r.Accepted? then {r.stream.id} else {}
      ensures transport.stream.waited == old(transport.stream.waited) + if r.NotReady? then 1 else 0
      ensures if r.Ended? then
                Final(Codec.NextFrame(Perform(old(State()), ls).value.reader).1,
                      transport.stream.ended - old(transport.stream.ended))
              else transport.stream.ended == old(transport.stream.ended)
    {
      hide Valid, State, HeadMap.Valid, HeadMap.State, HeadMap.Repr;
      hide Do, Perform, Enabled, Unread, ReadAs, Final, Codec.NextFrame, BytesOut, BytesIn, Refusals, Moved;
      ghost var start := State();
      ls := [];
      ghost var first := Network();
      Unmoved(start, first);
      while true
        invariant fresh(transport.Repr() - old(transport.Repr()))
        invariant fresh(transport.reader.buffer.Repr - old(transport.reader.buffer.Repr))
        invariant Valid() && fresh(streams.Owned - old(streams.Owned)) && streams.Stay(old(streams.heads))
        invariant Draining.None? && At == old(At) && Perform(start, ls) == Some(State())
        invariant Exchanged(first, start, ls) && Within(ls) && streams.heads.Keys == old(streams.heads.Keys)
        invariant transport.stream.waited == old(transport.stream.waited)
        invariant transport.stream.ended == old(transport.stream.ended)
        decreases Unread()
      {
        ghost var before := Network();
        var turn, more := ReadTurn();
        ThenMoved(start, ls, more, first, before, Network());
        if turn.Some? {
          ReadLater(start, ls, turn.value, more);
          PerformConcat(start, ls, more);
          return turn.value, ls + more;
        }
        ls := ls + more;
      }
    }

    // --- Draining the heads ------------------------------------------------------------------

    method PollHeadOnce(id: u32) returns (r: Polled)
      requires Valid() && id in streams.heads
      modifies streams.Owned
      ensures transport.Repr() == old(transport.Repr()) && unchanged(transport.stream)
      ensures Valid() && unchanged(streams) && unchanged(this)
      ensures id in old(State()).streams && r == StreamModel.PollNext(old(State()).streams[id]).1
      ensures State() == old(State()).(streams :=
                old(State()).streams[id := StreamModel.PollNext(old(State()).streams[id]).0])
    {
      hide T.YamuxTransport.Valid, StreamModel.PollNext, HeadMap.State;
      r := streams.PollHead(id);
    }

    ghost method SetDraining(d: Option<u32>, p: Phase)
      requires Valid()
      modifies this`Draining, this`At
      ensures Valid() && Draining == d && At == p && State() == old(State()).(draining := d, phase := p)
    {
      hide T.YamuxTransport.Valid, HeadMap.Valid, HeadMap.State;
      Draining, At := d, p;
    }

    /** One event out of the head being drained, or the end of its turn. */
    method DrainStep(id: u32) returns (r: Polled)
      requires Valid() && Draining == Some(id) && id in streams.heads && At.Serving?
      modifies this`Draining, this`At, this`outQueue, streams.Owned
      ensures transport.Repr() == old(transport.Repr()) && unchanged(transport.stream)
      ensures Valid() && unchanged(streams)
      ensures id in old(State()).streams && (State().streams[id], r) == StreamModel.PollNext(old(State()).streams[id])
      ensures State().streams == old(State()).streams[id := State().streams[id]]
      ensures Enabled(old(State()), PollHead) && State() == Do(old(State()), PollHead)
      ensures Draining == if r.Ready? then Some(id) else None
      ensures At == if r.Finished? then old(At).(ended := old(At).ended + {id}) else old(At)
    {
      hide Valid, State, HeadMap.Valid, HeadMap.State, HeadMap.Repr;
      hide StreamModel.PollNext, Do, Enabled, T.YamuxTransport.Repr;
      Fields();
      PollIs(State(), id);
      r := PollHeadOnce(id);
      if r.Ready? {
        Enqueue(StreamFrame(id, r.event));
      } else {
        SetDraining(None, if r.Finished? then At.(ended := At.ended + {id}) else At);
      }
    }

    /** Everything a head has to say goes into the queue before any other head is asked. */
    method DrainHead(id: u32) returns (closed: bool, ghost ls: seq<Label>)
      requires Valid() && Draining.None? && id in streams.heads && At.Serving? && id in At.todo
      modifies this`Draining, this`At, this`outQueue, streams.Owned
      ensures transport.Repr() == old(transport.Repr()) && unchanged(transport.stream)
      ensures Valid() && Draining.None? && unchanged(streams)
      ensures Perform(old(State()), ls) == Some(State()) && HeadsOnly(ls)
      ensures State().streams == old(State().streams)[id := State().streams[id]]
      ensures At == old(At).(todo := old(At).todo - {id}, ended := old(At).ended + if closed then {id} else {})
      ensures closed ==> StreamModel.PollNext(State().streams[id]).1.Finished?
      ensures !closed ==> StreamModel.PollNext(State().streams[id]).1.Blocked?
    {
      hide Valid, State, HeadMap.Valid, HeadMap.State, HeadMap.Repr;
      hide StreamModel.PollNext, Perform, Do, Enabled, Backlog, T.YamuxTransport.Repr;
      hide BytesOut, BytesIn, Refusals;
      ghost var start := State();
      Fields();
      BeginIs(start, id);
      SetDraining(Some(id), At.(todo := At.todo - {id}));
      ls := [BeginDrain(id)];
      while true
        invariant transport.Repr() == old(transport.Repr()) && unchanged(transport.stream)
        invariant Valid() && Draining == Some(id) && unchanged(streams)
        invariant At == old(At).(todo := old(At).todo - {id})
        invariant id in State().streams && Perform(start, ls) == Some(State()) && HeadsOnly(ls)
        invariant State().streams == start.streams[id := State().streams[id]]
        decreases Backlog(State().streams[id])
      {
        ghost var before := State().streams[id];
        PollBacklog(before);
        HG.StaysAsPolled(before);
        var r := DrainStep(id);
        Fields();
        PerformSnoc(start, ls, PollHead);
        ls := ls + [PollHead];
        if !r.Ready? {
          closed := r.Finished?;
          return;
        }
      }
    }

    /** All heads, in whatever order the map hands them out. */
    method DrainAll() returns (closed: set<u32>, ghost ls: seq<Label>)
      requires Valid() && Draining.None? && At.Serving? && At.todo == streams.heads.Keys && At.ended == {}
      modifies this`Draining, this`At, this`outQueue, streams.Owned
      ensures transport.Repr() == old(transport.Repr()) && unchanged(transport.stream)
      ensures Valid() && Draining.None? && unchanged(streams)
      ensures At == old(At).(todo := {}, ended := closed)
      ensures Perform(old(State()), ls) == Some(State()) && HeadsOnly(ls)
      ensures closed <= streams.heads.Keys && State().streams.Keys == streams.heads.Keys
      ensures forall id | id in closed :: StreamModel.PollNext(State().streams[id]).1.Finished?
      ensures forall id | id in streams.heads && id !in closed :: StreamModel.PollNext(State().streams[id]).1.Blocked?
    {
      hide Valid, State, HeadMap.Valid, HeadMap.State, HeadMap.Repr;
      hide StreamModel.PollNext, Perform, Do, Enabled, BytesOut, BytesIn, Refusals;
      ghost var start := State();
      PerformNothing(start);
      Fields();
      var todo := streams.heads.Keys;
      closed, ls := {}, [];
      while todo != {}
        invariant transport.Repr() == old(transport.Repr()) && unchanged(transport.stream)
        invariant Valid() && Draining.None? && unchanged(streams)
        invariant At == old(At).(todo := todo, ended := closed)
        invariant Perform(start, ls) == Some(State()) && HeadsOnly(ls)
        invariant State().streams.Keys == streams.heads.Keys
        invariant todo <= streams.heads.Keys && closed <= streams.heads.Keys && todo !! closed
        invariant forall id | id in closed :: StreamModel.PollNext(State().streams[id]).1.Finished?
        invariant forall id | id in streams.heads && id !in todo && id !in closed ::
                    StreamModel.PollNext(State().streams[id]).1.Blocked?
        decreases todo
      {
        var id :| id in todo;
        var done, more := DrainHead(id);
        Fields();
        PerformConcat(start, ls, more);
        todo, ls := todo - {id}, ls + more;
        if done {
          closed := closed + {id};
        }
      }
    }

    method RemoveHead(id: u32)
      requires Valid() && id in streams.heads
      modifies streams`heads, streams.Owned
      ensures transport.Repr() == old(transport.Repr()) && unchanged(transport.stream) && unchanged(this)
      ensures streams.Owned == old(streams.Owned)
      ensures Valid() && State() == old(State()).(streams := old(State()).streams - {id})
      ensures streams.heads == old(streams.heads) - {id}
      ensures forall c: Channel | c in streams.Owned && c.id != id :: unchanged(c)
      ensures old(streams.heads)[id].rx.receiverGone && old(streams.heads)[id].toUser.senderGone
    {
      hide T.YamuxTransport.Valid, HeadMap.State;
      streams.Remove(id);
    }

    method RemoveTurn(id: u32)
      requires Valid() && Draining.None? && id in streams.heads && At.Serving? && At.todo == {} && id in At.ended
      requires id in State().streams && StreamModel.PollNext(State().streams[id]).1.Finished?
      modifies this`At, streams`heads, streams.Owned
      ensures transport.Repr() == old(transport.Repr()) && unchanged(transport.stream)
      ensures streams.Owned == old(streams.Owned) && Draining.None?
      ensures Valid() && Enabled(old(State()), Remove(id)) && State() == Do(old(State()), Remove(id))
      ensures State().streams == old(State()).streams - {id} && At == old(At).(ended := old(At).ended - {id})
      ensures streams.heads == old(streams.heads) - {id}
      ensures forall c: Channel | c in streams.Owned && c.id != id :: unchanged(c)
      ensures old(streams.heads)[id].rx.receiverGone && old(streams.heads)[id].toUser.senderGone
    {
      hide Valid, State, HeadMap.Valid, HeadMap.State, HeadMap.Repr, StreamModel.PollNext, Do, Enabled;
      Fields();
      RemoveIs(State(), id);
      RemoveHead(id);
      Goto(At.(ended := At.ended - {id}));
    }

    /** The ended heads leave, and their users are told. */
    method RemoveAll(closed: set<u32>) returns (ghost ls: seq<Label>)
      requires Valid() && Draining.None? && At.Serving? && At.todo == {} && At.ended == closed
      requires closed <= streams.heads.Keys && closed <= State().streams.Keys
      requires forall id | id in closed :: StreamModel.PollNext(State().streams[id]).1.Finished?
      modifies this`At, streams`heads, streams.Owned
      ensures transport.Repr() == old(transport.Repr()) && unchanged(transport.stream)
      ensures Valid() && Draining.None? && streams.Owned == old(streams.Owned)
      ensures At == old(At).(ended := {})
      ensures Perform(old(State()), ls) == Some(State()) && HeadsOnly(ls)
      ensures State().streams == old(State()).streams - closed && streams.heads == old(streams.heads) - closed
      ensures forall id | id in closed ::
                old(streams.heads)[id].rx.receiverGone && old(streams.heads)[id].toUser.senderGone
    {
      hide Valid, State, HeadMap.Valid, HeadMap.State, HeadMap.Repr;
      hide StreamModel.PollNext, Perform, Do, Enabled, BytesOut, BytesIn, Refusals, Exchanged;
      ghost var start := State();
      PerformNothing(start);
      var todo, gone := closed, {};
      ls := [];
      Ends();
      while todo != {}
        invariant transport.Repr() == old(transport.Repr()) && unchanged(transport.stream)
        invariant Valid() && Draining.None? && streams.Owned == old(streams.Owned)
        invariant todo <= closed && gone == closed - todo
        invariant At == old(At).(ended := todo)
        invariant Perform(start, ls) == Some(State()) && HeadsOnly(ls)
        invariant State().streams == start.streams - gone && streams.heads == old(streams.heads) - gone
        invariant forall id | id in gone ::
                    old(streams.heads)[id].rx.receiverGone && old(streams.heads)[id].toUser.senderGone
        decreases todo
      {
        Fields();
        var id :| id in todo;
        ghost var before := State();
        RemoveTurn(id);
        PerformSnoc(start, ls, Remove(id));
        MinusMore(start.streams, gone, id);
        MinusMore(old(streams.heads), gone, id);
        todo, gone, ls := todo - {id}, gone + {id}, ls + [Remove(id)];
      }
    }

    // --- One poll ----------------------------------------------------------------------------

    /** What a poll leaves that ends neither with a stream nor with the session: no frame to parse, no
        head with anything to say or to be removed, and nothing queued that the transport was ready
        for when it was last asked, in state `asked`, before any closing flush. Bytes may be left in
        the buffer. */
    ghost predicate Exhausted(asked: Session)
      reads this, streams, streams.Owned, transport, transport.writer, transport.reader,
            transport.writer.buffer, transport.reader.buffer,
            transport.writer.buffer.Repr, transport.reader.buffer.Repr
      requires Valid()
    {
      && Codec.NextFrame(State().reader).1.NeedMore?
      && (forall id | id in State().streams :: StreamModel.PollNext(State().streams[id]).1.Blocked?)
      && State() == asked.(buffer := State().buffer, phase := Resting)
      && (asked.outQueue == [] || !SendReady(asked))
    }

    /** Every head is drained, and the ended ones leave. */
    method ServeHeads() returns (ghost ls: seq<Label>)
      requires Valid() && Draining.None? && At.Reading? && Codec.NextFrame(State().reader).1.NeedMore?
      modifies this`At, this`outQueue, this`Draining, streams`heads, streams.Owned
      ensures transport.Repr() == old(transport.Repr()) && unchanged(transport.stream)
      ensures Valid() && Draining.None? && streams.Owned == old(streams.Owned) && streams.Kept(old(streams.heads))
      ensures streams.heads.Keys <= old(streams.heads.Keys)
      ensures At == Sending(false, old(At).sent, false)
      ensures Perform(old(State()), ls) == Some(State()) && Exchanged(old(Network()), old(State()), ls) && Within(ls)
      ensures State().reader == old(State()).reader
      ensures forall id | id in State().streams :: StreamModel.PollNext(State().streams[id]).1.Blocked?
    {
      hide Valid, State, HeadMap.Valid, HeadMap.State, HeadMap.Repr;
      hide StreamModel.PollNext, Perform, Do, Enabled, Codec.NextFrame, BytesOut, BytesIn, Refusals;
      hide Moved, HeadsOnly, Within;
      ghost var start := State();
      PerformNothing(start);
      Fields();
      StopIs(start);
      PerformSnoc(start, [], StopReading);
      ls := [] + [StopReading];
      assert [] + [StopReading] == [StopReading];
      Goto(Serving(At.sent, streams.heads.Keys, {}));
      Fields();
      var closed, draining := DrainAll();
      Fields();
      PerformConcat(start, ls, draining);
      HeadsMore(ls, draining);
      var removing := RemoveAll(closed);
      PerformConcat(start, ls + draining, removing);
      HeadsMore(ls + draining, removing);
      ls := ls + draining + removing;
      Fields();
      EndServingIs(State());
      PerformSnoc(start, ls, EndServing);
      Goto(Sending(false, At.sent, false));
      HeadsMore(ls, [EndServing]);
      ls := ls + [EndServing];
      HeadsOnlyQuiet(start, ls);
      Unmoved(start, Network());
    }

    /** A second try to send, and a flush if either try got anything into the buffer. */
    method SendRest(sent: bool) returns (ghost ls: seq<Label>, ghost asked: Session)
      requires Valid() && Draining.None? && At == Sending(false, sent, false)
      modifies this`At, this`outQueue
      modifies transport.stream`accepted, transport.stream`refused, transport.stream`idle, transport.writer.buffer.Repr
      ensures NotRead()
      ensures unchanged(streams) && transport.reader.buffer.Repr == old(transport.reader.buffer.Repr)
      ensures fresh(transport.writer.buffer.Repr - old(transport.writer.buffer.Repr))
      ensures Valid() && Draining.None? && At.Resting? && Perform(old(State()), ls) == Some(State())
      ensures Exchanged(old(Network()), old(State()), ls) && Within(ls)
      ensures State().streams == old(State()).streams && State().reader == old(State()).reader
      ensures State() == asked.(buffer := State().buffer, phase := Resting)
      ensures asked.outQueue == [] || !SendReady(asked)
    {
      hide Valid, State, HeadMap.Valid, HeadMap.State, HeadMap.Repr;
      hide StreamModel.PollNext, Perform, Do, Enabled, Codec.NextFrame, BytesOut, BytesIn, Refusals, SendReady, Moved;
      hide T.YamuxTransport.Repr, T.YamuxTransport.Valid;
      hide LeavesBy, ArrivesBy;
      ghost var start, first := State(), Network();
      var sentAny;
      sentAny, ls := SendLoop(sent, false);
      Fields();
      LeaveLoop();
      ThenQuiet(start, ls, Leave, first, Network());
      ls := ls + [Leave];
      asked := State();
      if sentAny {
        ghost var before := Network();
        var n := Flush();
        OfferBrings(n);
        Then(start, ls, Offer(n), first, before, Network());
        ls := ls + [Offer(n)];
      }
    }

    /** A poll begins with a first try to send. */
    method SendFirst() returns (sent: bool, ghost ls: seq<Label>)
      requires Valid() && Draining.None? && At.Resting?
      modifies this`At, this`outQueue
      modifies transport.stream`accepted, transport.stream`refused, transport.stream`idle, transport.writer.buffer.Repr
      ensures NotRead()
      ensures fresh(transport.writer.buffer.Repr - old(transport.writer.buffer.Repr))
      ensures unchanged(streams) && transport.reader.buffer.Repr == old(transport.reader.buffer.Repr)
      ensures Valid() && Draining.None? && At == Reading(sent)
      ensures OnePoll(ls) && Perform(old(State()), ls) == Some(State())
      ensures Exchanged(old(Network()), old(State()), ls)
    {
      hide Valid, State, HeadMap.Valid, HeadMap.State, HeadMap.Repr;
      hide StreamModel.PollNext, Perform, Do, Enabled, Codec.NextFrame, BytesOut, BytesIn, Refusals, Moved;
      hide T.YamuxTransport.Repr, T.YamuxTransport.Valid;
      hide LeavesBy, ArrivesBy, SendReady, OnePoll;
      ghost var start, first := State(), Network();
      Fields();
      ThenBegin(start, first);
      Goto(Sending(true, false, false));
      ls := [BeginPoll];
      ghost var sending;
      sent, sending := SendLoop(false, true);
      ThenMoved(start, ls, sending, first, first, Network());
      PollGoesOn(ls, sending);
      ls := ls + sending;
      LeaveLoop();
      ThenQuiet(start, ls, Leave, first, Network());
      PollGoesOn(ls, [Leave]);
      ls := ls + [Leave];
    }

    /** The first half of a poll: sending what is queued, then reading. */
    method SendAndRead() returns (r: Outcome, sent: bool, ghost ls: seq<Label>)
      requires Valid() && Draining.None? && At.Resting?
      modifies this`At, this`outQueue, streams, streams.Owned, transport.Repr()
      ensures Valid() && Draining.None? && streams.Stay(old(streams.heads))
      ensures At == if r.Accepted? then Resting else Reading(sent)
      ensures streams.heads.Keys == old(streams.heads.Keys) + if r.Accepted? then {r.stream.id} else {}
      ensures fresh(streams.Owned - old(streams.Owned)) && fresh(transport.Repr() - old(transport.Repr()))
      ensures OnePoll(ls) && Perform(old(State()), ls).Some? && Exchanged(old(Network()), old(State()), ls)
      ensures r.Ended? ==>
                var end := Perform(old(State()), ls).value;
                !Enabled(end, NextFrame) && State() == end.(reader := State().reader)
      ensures r.NotReady? ==>
                Perform(old(State()), ls) == Some(State()) && Codec.NextFrame(State().reader).1.NeedMore?
      ensures transport.stream.waited == old(transport.stream.waited) + if r.NotReady? then 1 else 0
      ensures if r.Ended? then
                Final(Codec.NextFrame(Perform(old(State()), ls).value.reader).1,
                      transport.stream.ended - old(transport.stream.ended))
              else transport.stream.ended == old(transport.stream.ended)
      ensures r.Accepted? ==>
                && Perform(old(State()), ls) == Some(State()) && Accepting(old(State()), ls, r.stream.id)
                && Serves(r.stream) && fresh(r.stream)
    {
      hide Valid, State, HeadMap.Valid, HeadMap.State, HeadMap.Repr;
      hide StreamModel.PollNext, Perform, Do, Enabled, Codec.NextFrame, BytesOut, BytesIn, Refusals;
      hide Accepting, Serves, Moved, OnePoll, Final;
      ghost var start, first := State(), Network();
      ghost var reading;
      sent, ls := SendFirst();
      ghost var middle := Network();
      r, reading := ReadLoop();
      PollReads(start, ls, r, reading);
      ThenMoved(start, ls, reading, first, middle, Network());
      ls := ls + reading;
    }

    /** The second half: serving the heads, then sending. */
    method ServeAndSend(sent: bool) returns (ghost ls: seq<Label>, ghost asked: Session)
      requires Valid() && Draining.None? && At == Reading(sent) && Codec.NextFrame(State().reader).1.NeedMore?
      modifies this`At, this`outQueue, this`Draining, streams`heads, streams.Owned
      modifies transport.stream`accepted, transport.stream`refused, transport.stream`idle, transport.writer.buffer.Repr
      ensures NotRead()
      ensures Valid() && Draining.None? && At.Resting?
      ensures streams.Owned == old(streams.Owned) && streams.Kept(old(streams.heads))
      ensures streams.heads.Keys <= old(streams.heads.Keys) && fresh(transport.Repr() - old(transport.Repr()))
      ensures Perform(old(State()), ls) == Some(State()) && Exchanged(old(Network()), old(State()), ls) && Within(ls)
      ensures Exhausted(asked)
    {
      hide Valid, State, HeadMap.Valid, HeadMap.State, HeadMap.Repr;
      hide StreamModel.PollNext, Perform, Do, Enabled, Codec.NextFrame, BytesOut, BytesIn, Refusals;
      hide Accepting, Serves, Moved;
      ghost var start, first := State(), Network();
      Ends();
      ghost var serving, more;
      serving := ServeHeads();
      Apart();
      more, asked := SendRest(sent);
      ThenMoved(start, serving, more, first, first, Network());
      ls := serving + more;
    }

    /** A poll is a sequence of the model's labels, and its traffic with the network is theirs. It
        accepts a stream only with the frame that opens it, ends the session only where no frame can
        be taken any more, and otherwise stops only when there is nothing left to parse, to say or to
        send that the transport is ready for. What it leaves in the buffer is another matter: with
        nothing queued, nothing new and no head with anything to say, it does not ask the byte stream
        at all. */
    method PollNext() returns (r: Outcome, ghost ls: seq<Label>, ghost asked: Session)
      requires Valid() && Draining.None? && At.Resting?
      modifies this`At, this`outQueue, this`Draining, streams, streams.Owned, transport.Repr()
      ensures Valid() && Draining.None? && (!r.Ended? ==> At.Resting?) && streams.Kept(old(streams.heads))
      ensures fresh(streams.Owned - old(streams.Owned)) && fresh(transport.Repr() - old(transport.Repr()))
      ensures OnePoll(ls) && Perform(old(State()), ls).Some? && Exchanged(old(Network()), old(State()), ls)
      ensures !r.Ended? ==> Perform(old(State()), ls) == Some(State())
      ensures r.Ended? ==>
                var end := Perform(old(State()), ls).value;
                !Enabled(end, NextFrame) && State() == end.(reader := State().reader)
      ensures r.Accepted? ==> Accepting(old(State()), ls, r.stream.id) && Serves(r.stream) && fresh(r.stream)
      ensures r.NotReady? ==> Exhausted(asked)
      ensures if r.Accepted? then streams.heads.Keys == old(streams.heads.Keys) + {r.stream.id}
              else streams.heads.Keys <= old(streams.heads.Keys)
      ensures transport.stream.waited == old(transport.stream.waited) + if r.NotReady? then 1 else 0
      ensures if r.Ended? then
                Final(Codec.NextFrame(Perform(old(State()), ls).value.reader).1,
                      transport.stream.ended - old(transport.stream.ended))
              else transport.stream.ended == old(transport.stream.ended)
      ensures !r.Ended? ==>
                (Polls.Asks(ls) <==>
                   old(outQueue) != [] || (Polls.Queues(old(State()), ls) && ls[|ls| - 1] != NextFrame))
      ensures Polls.Idle(old(State())) && old(Network()).incoming == [] ==>
                Network() == old(Network()) && State().buffer == old(State()).buffer && State().outQueue == []
    {
      hide Valid, State, HeadMap.Valid, HeadMap.State, HeadMap.Repr;
      hide StreamModel.PollNext, Perform, Do, Enabled, Codec.NextFrame, BytesOut, BytesIn, Refusals;
      hide Accepting, Serves, Moved, OnePoll, Final;
      hide Polls.Asks, Polls.Queues, Polls.Idle;
      ghost var start, first := State(), Network();
      Fields();
      asked := start;
      var sent;
      r, sent, ls := SendAndRead();
      if r.NotReady? {
        ghost var middle, more := Network(), [];
        more, asked := ServeAndSend(sent);
        ThenMoved(start, ls, more, first, middle, Network());
        PollGoesOn(ls, more);
        ls := ls + more;
      }
      Fields();
      AskedAsSaid(start, ls, State(), r.Ended?);
      if Polls.Idle(start) && first.incoming == [] {
        LeftAlone(start, ls, first, Network());
      }
    }
  }
}
