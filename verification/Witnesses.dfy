/** Concrete runs of two sessions in which something written does not arrive. */
module Witnesses {
  import opened Wire
  import opened StreamModel
  import opened SessionModel
  import opened TwoEndpoints
  import opened Guarantees
  import opened Liveness
  import opened Losses
  import opened Rest
  import EG = EndpointGuarantees
  import Polls
  import Codec

  // --- One side, step by step --------------------------------------------------------------

  predicate Silence(x: Endpoint) {
    x.sent == [] && x.got == [] && x.sess.reader == Codec.NEW_READER
  }

  /** An endpoint that knows one stream and has exchanged nothing yet. */
  predicate Alone(x: Endpoint, h: History, queue: seq<Frame>, buffer: seq<byte>, draining: Option<u32>, phase: Phase) {
    && x.sess.streams == map[1 := h.s] && x.runs == map[1 := h] && 1 in x.handles
    && x.sess.outQueue == queue && x.sess.buffer == buffer && x.sess.draining == draining
    && x.sess.phase == phase && Silence(x)
  }

  function ByClient(l: Label): Move {
    Move(false, Internal(l))
  }

  function ByServer(l: Label): Move {
    Move(true, Internal(l))
  }

  lemma Opened(limit: nat)
    ensures var x := NewEndpoint(false, limit);
            && CanAct(x, Internal(OpenStream))
            && Alone(Act(x, Internal(OpenStream)), Birth(true), [], [], None, Resting)
  {
  }

  lemma UserActs(x: Endpoint, h: History, op: Op)
    requires Alone(x, h, [], [], None, Resting) && (op == CloseUser || op == Op.Write([7]))
    ensures CanAct(x, Internal(User(1, op)))
    ensures Alone(Act(x, Internal(User(1, op))), Step(h, op), [], [], None, Resting)
  {
  }

  lemma NewReaderWaits()
    ensures Codec.NextFrame(Codec.NEW_READER).1.NeedMore?
  {
  }

  /** From the beginning of a poll to the head's turn, with nothing to send and nothing to read. */
  lemma TurnComes(x: Endpoint, h: History)
    requires Alone(x, h, [], [], None, Resting)
    ensures CanAct(x, Internal(BeginPoll))
    ensures var x1 := Act(x, Internal(BeginPoll));
            && CanAct(x1, Internal(Leave))
            && var x2 := Act(x1, Internal(Leave));
            && CanAct(x2, Internal(StopReading))
            && Alone(Act(x2, Internal(StopReading)), h, [], [], None, Serving(false, {1}, {}))
  {
    assert Codec.NextFrame(Codec.NEW_READER).1.NeedMore? by { NewReaderWaits(); }
    hide Codec.NextFrame;
    assert map[1 := h.s].Keys == {1};
  }

  lemma Begun(x: Endpoint, h: History)
    requires Alone(x, h, [], [], None, Serving(false, {1}, {}))
    ensures CanAct(x, Internal(BeginDrain(1)))
    ensures Alone(Act(x, Internal(BeginDrain(1))), h, [], [], Some(1), Serving(false, {}, {}))
  {
    assert {1} - {1 as u32} == {};
  }

  lemma Drained(x: Endpoint, h: History, queue: seq<Frame>)
    requires Alone(x, h, queue, [], Some(1), Serving(false, {}, {}))
    ensures CanAct(x, Internal(PollHead))
    ensures var x' := Act(x, Internal(PollHead));
            match PollNext(h.s).1
            case Ready(e) =>
              Alone(x', Step(h, Poll), queue + [StreamFrame(1, e)], [], Some(1), Serving(false, {}, {}))
            case Blocked => Alone(x', Step(h, Poll), queue, [], None, Serving(false, {}, {}))
            case Finished => Alone(x', Step(h, Poll), queue, [], None, Serving(false, {}, {1}))
  {
    hide PollNext;
    assert Step(h, Poll).s == PollNext(h.s).0;
    assert {} + {1 as u32} == {1};
  }

  lemma Moves(s0: System, s: System, moves: seq<Move>, m: Move) returns (more: seq<Move>, t: System)
    requires Reach(s0, moves) == Some(s) && Allowed(s, m)
    ensures more == moves + [m] && t == Apply(s, m) && Reach(s0, more) == Some(t)
  {
    hide Allowed, Apply, Reach;
    ReachConcat(s0, moves, m);
    more, t := moves + [m], Apply(s, m);
  }

  lemma StartsThere(s0: System)
    ensures Reach(s0, []) == Some(s0)
  {
  }

  lemma LimitStays(limits: (nat, nat), moves: seq<Move>, s: System)
    requires Reachable(s, limits, moves)
    ensures s.client.sess.limit == limits.0
  {
    hide Act, CanAct;
    SidesAreRuns(limits, moves, false);
    EG.LimitKept(NewEndpoint(false, limits.0), ActionsOf(moves, false));
  }

  /** The client opens a stream, its user does one thing, and the first poll comes to the head. */
  lemma ClientTurn(limits: (nat, nat), op: Op) returns (moves: seq<Move>, s: System)
    requires op == CloseUser || op == Op.Write([7])
    ensures Reachable(s, limits, moves) && s.server == NewEndpoint(true, limits.1)
    ensures s.client.sess.limit == limits.0
    ensures Alone(s.client, Step(Birth(true), op), [], [], Some(1), Serving(false, {}, {}))
  {
    hide Act, CanAct, Step, Birth, PollNext, Reach;
    var s0 := Start(limits.0, limits.1);
    s, moves := s0, [];
    assert Reach(s0, []) == Some(s0) by { StartsThere(s0); }
    var h := Birth(true);
    Opened(limits.0);
    moves, s := Moves(s0, s, moves, ByClient(OpenStream));
    UserActs(s.client, h, op);
    h := Step(h, op);
    moves, s := Moves(s0, s, moves, ByClient(User(1, op)));
    TurnComes(s.client, h);
    moves, s := Moves(s0, s, moves, ByClient(BeginPoll));
    moves, s := Moves(s0, s, moves, ByClient(Leave));
    moves, s := Moves(s0, s, moves, ByClient(StopReading));
    Begun(s.client, h);
    moves, s := Moves(s0, s, moves, ByClient(BeginDrain(1)));
    LimitStays(limits, moves, s);
  }

  // --- Written to a head that is gone ------------------------------------------------------

  /** The history of the client's head. */
  lemma ClosedEarly()
    ensures var h1 := Step(Birth(true), CloseUser);
            var h2 := Step(h1, Poll);
            var h3 := Step(h2, Poll);
            && PollNext(h1.s).1 == Ready(WindowUpdate(SYN, INITIAL_WINDOW))
            && PollNext(h2.s).1.Ready? && PollNext(h3.s).1.Finished? && Step(h3, Poll) == h3
            && h3.opener && h3.received == [] && !h3.s.userGone
  {
    var h1 := Step(Birth(true), CloseUser);
    var h2 := Step(h1, Poll);
    assert h1.s.outs == [WindowUpdate(SYN, INITIAL_WINDOW)] && h2.s.outs == [] && h2.s.up == [] && h2.s.upClosed;
    assert Fill(h2.s) == CloseLocal(h2.s);
  }

  lemma Ended(x: Endpoint, h: History, queue: seq<Frame>)
    requires Alone(x, h, queue, [], None, Serving(false, {}, {1})) && PollNext(h.s).1.Finished?
    ensures CanAct(x, Internal(Remove(1)))
    ensures var x1 := Act(x, Internal(Remove(1)));
            && CanAct(x1, Internal(EndServing))
            && var x2 := Act(x1, Internal(EndServing));
            && x2.sess.streams == map[] && x2.runs == map[1 := h] && x2.sess.outQueue == queue
            && x2.sess.draining == None && x2.sess.buffer == [] && x2.sess.phase == Sending(false, false, false)
            && Silence(x2)
  {
    hide PollNext;
    assert {1} - {1 as u32} == {};
  }

  lemma Sent12(x: Endpoint, f: Frame, rest: seq<Frame>)
    requires x.sess.outQueue == [f] + rest && rest != [] && x.sess.draining == None
    requires x.sess.buffer == [] && x.sent == [] && x.sess.phase == Sending(false, false, false)
    requires |Encode(f)| == HEADER_LEN
    ensures CanAct(x, Internal(Offer(0)))
    ensures var x1 := Act(x, Internal(Offer(0)));
            && CanAct(x1, Internal(StartSend))
            && var x2 := Act(x1, Internal(StartSend));
            && CanAct(x2, Internal(Offer(HEADER_LEN)))
            && var x3 := Act(x2, Internal(Offer(HEADER_LEN)));
            x3.sent == Encode(f) && x3.runs == x.runs && x3.sess.streams == x.sess.streams
  {
    hide Encode;
  }

  const OPENING: Frame := StreamFrame(1, WindowUpdate(SYN, INITIAL_WINDOW))

  lemma Heard12(y: Endpoint, c: Chunk)
    requires y == NewEndpoint(true, y.sess.limit) && c == Encode(OPENING)
    ensures CanAct(y, Internal(BeginPoll))
    ensures var y1 := Act(y, Internal(BeginPoll));
            && CanAct(y1, Internal(Leave))
            && var y2 := Act(y1, Internal(Leave));
            && CanAct(y2, Internal(Receive(c)))
            && var y3 := Act(y2, Internal(Receive(c)));
            && y3.runs == y.runs && y3.sess.streams == y.sess.streams && y3.sess.draining == None
            && y2.got == [] && y3.sess.phase == Reading(false)
            && Codec.NextFrame(y3.sess.reader).1 == Codec.Parsed(OPENING)
  {
    hide EncodeHeader, DecodeHeader;
    FlatSnoc([], c);
    assert Flat([]) == [] && [] + [c] == [c] && Flat([c])[..HEADER_LEN] == c;
    FrameRoundTrip(OPENING);
  }

  lemma Accepted(y: Endpoint)
    requires y.runs == map[] && y.sess.streams == map[] && y.sess.draining == None && y.sess.phase == Reading(false)
    requires Codec.NextFrame(y.sess.reader).1 == Codec.Parsed(OPENING)
    ensures CanAct(y, Internal(NextFrame))
    ensures var y' := Act(y, Internal(NextFrame));
            && y'.runs == map[1 := Step(Birth(false), Input(OPENING.event))]
            && 1 in y'.sess.streams && !y'.runs[1].s.upClosed && !y'.runs[1].s.userGone
  {
    hide Codec.NextFrame;
  }

  lemma Wrote(y: Endpoint)
    requires 1 in y.runs && 1 in y.sess.streams && !y.runs[1].s.upClosed && !y.runs[1].s.userGone
    ensures CanAct(y, Internal(User(1, Op.Write([7]))))
    ensures var y' := Act(y, Internal(User(1, Op.Write([7]))));
            1 in y'.runs && !Silent(y'.runs[1]) && !y'.runs[1].s.userGone
  {
  }

  /** The client opens a stream, its user closes it at once, and its head is drained and removed. */
  lemma ClientGone(limits: (nat, nat)) returns (moves: seq<Move>, s: System)
    ensures Reachable(s, limits, moves)
    ensures s.server == NewEndpoint(true, limits.1)
    ensures var x := s.client;
            && x.sess.streams == map[] && x.sess.draining == None && x.sess.buffer == [] && Silence(x)
            && x.sess.phase == Sending(false, false, false)
            && |x.sess.outQueue| == 2 && x.sess.outQueue[0] == OPENING
            && x.runs.Keys == {1} && x.runs[1].opener && x.runs[1].received == [] && !x.runs[1].s.userGone
  {
    hide Act, CanAct, Step, Birth, PollNext, Reach;
    var s0 := Start(limits.0, limits.1);
    ClosedEarly();
    moves, s := ClientTurn(limits, CloseUser);
    var h := Step(Birth(true), CloseUser);
    Drained(s.client, h, []);
    h := Step(h, Poll);
    moves, s := Moves(s0, s, moves, ByClient(PollHead));
    Drained(s.client, h, s.client.sess.outQueue);
    h := Step(h, Poll);
    moves, s := Moves(s0, s, moves, ByClient(PollHead));
    Drained(s.client, h, s.client.sess.outQueue);
    moves, s := Moves(s0, s, moves, ByClient(PollHead));
    Ended(s.client, h, s.client.sess.outQueue);
    moves, s := Moves(s0, s, moves, ByClient(Remove(1)));
    moves, s := Moves(s0, s, moves, ByClient(EndServing));
  }

  lemma NothingReceived(h: History)
    requires h.received == []
    ensures Received(h) == []
  {
  }

  lemma OpeningLength()
    ensures |Encode(OPENING)| == HEADER_LEN
  {
  }

  /** The server has heard of the stream. */
  lemma ServerHears(limits: (nat, nat)) returns (moves: seq<Move>, s: System)
    ensures Reachable(s, limits, moves)
    ensures var (x, y) := (s.client, s.server);
            && x.sess.streams == map[]
            && x.runs.Keys == {1} && x.runs[1].opener && x.runs[1].received == [] && !x.runs[1].s.userGone
            && 1 in y.runs && 1 in y.sess.streams && !y.runs[1].s.upClosed && !y.runs[1].s.userGone
  {
    hide Act, CanAct, Encode, Reach;
    var s0 := Start(limits.0, limits.1);
    moves, s := ClientGone(limits);
    assert s.client.sess.outQueue == [OPENING] + s.client.sess.outQueue[1..];
    OpeningLength();
    Sent12(s.client, OPENING, s.client.sess.outQueue[1..]);
    moves, s := Moves(s0, s, moves, ByClient(Offer(0)));
    moves, s := Moves(s0, s, moves, ByClient(StartSend));
    moves, s := Moves(s0, s, moves, ByClient(Offer(HEADER_LEN)));
    var c := s.client.sent;
    Heard12(s.server, c);
    moves, s := Moves(s0, s, moves, ByServer(BeginPoll));
    moves, s := Moves(s0, s, moves, ByServer(Leave));
    moves, s := Moves(s0, s, moves, ByServer(Receive(c)));
    Accepted(s.server);
    moves, s := Moves(s0, s, moves, ByServer(NextFrame));
  }

  /** And then the server's user writes: it comes to a state with something written to a deaf head. */
  lemma LossHappens(limits: (nat, nat)) returns (moves: seq<Move>, s: System)
    ensures Reachable(s, limits, moves)
    ensures 1 in s.client.runs && 1 in s.server.runs
    ensures Deaf(s.client, 1) && !Silent(s.server.runs[1]) && !s.client.runs[1].s.userGone
    ensures !AllThere(s.server.runs[1], s.client.runs[1].s)
  {
    hide Act, CanAct, Silent, AllThere, Reach;
    var s0 := Start(limits.0, limits.1);
    moves, s := ServerHears(limits);
    Wrote(s.server);
    moves, s := Moves(s0, s, moves, ByServer(User(1, Op.Write([7]))));
    StartsThere(s);
    NothingReceived(s.client.runs[1]);
    LossIsPermanent(s, limits, moves, [], true, 1);
  }

  // --- Written and left in the buffer ------------------------------------------------------

  /** The history of the client's head. */
  lemma WroteSeven()
    ensures var h1 := Step(Birth(true), Op.Write([7]));
            var h2 := Step(h1, Poll);
            var h3 := Step(h2, Poll);
            var h4 := Step(h3, Poll);
            && PollNext(h1.s).1 == Ready(WindowUpdate(SYN, INITIAL_WINDOW))
            && PollNext(h2.s).1 == Ready(Data(NO_FLAGS, 1)) && PollNext(h3.s).1 == Ready(DataChunk([7]))
            && PollNext(h4.s).1.Blocked? && Step(h4, Poll) == h4 && h4.written == [7]
  {
    var h1 := Step(Birth(true), Op.Write([7]));
    var h2 := Step(h1, Poll);
    WriteExactly(Birth(true).s, [7]);
    assert [7][..1] == [7];
    assert h1.s.outs == [WindowUpdate(SYN, INITIAL_WINDOW)] && h1.s.up == [[7]] && h2.s.outs == [] && h2.s.up == [[7]];
    var taken := TakeChunk(h2.s);
    assert taken.outs == [Data(NO_FLAGS, 1), DataChunk([7])] && taken.up == [] && !taken.upClosed;
    assert Fill(h2.s) == Fill(taken) == taken;
    var h3 := Step(h2, Poll);
    assert h3.s.outs == [DataChunk([7])];
    var h4 := Step(h3, Poll);
    assert h4.s.outs == [] && Fill(h4.s) == h4.s;
  }

  lemma Served(x: Endpoint, h: History, queue: seq<Frame>)
    requires Alone(x, h, queue, [], None, Serving(false, {}, {}))
    ensures CanAct(x, Internal(EndServing))
    ensures Alone(Act(x, Internal(EndServing)), h, queue, [], None, Sending(false, false, false))
  {
  }

  /** A frame goes into the buffer, and the byte stream takes nothing. */
  lemma Buffered(x: Endpoint, h: History, queue: seq<Frame>, buffer: seq<byte>, sent: bool)
    requires Alone(x, h, queue, buffer, None, Sending(false, sent, false)) && queue != [] && |buffer| < x.sess.limit
    ensures CanAct(x, Internal(Offer(0)))
    ensures var x1 := Act(x, Internal(Offer(0)));
            && CanAct(x1, Internal(StartSend))
            && var x2 := Act(x1, Internal(StartSend));
            && Alone(x2, h, queue[1..], buffer + Encode(queue[0]), None, Sending(false, true, false))
            && x2.sess.limit == x.sess.limit
  {
    hide Encode;
  }

  /** The poll ends with a flush of which the byte stream takes nothing either. */
  lemma FlushedInVain(x: Endpoint, h: History, buffer: seq<byte>)
    requires Alone(x, h, [], buffer, None, Sending(false, true, false))
    ensures CanAct(x, Internal(Leave))
    ensures var x1 := Act(x, Internal(Leave));
            && CanAct(x1, Internal(Offer(0)))
            && Alone(Act(x1, Internal(Offer(0))), h, [], buffer, None, Resting)
  {
  }

  lemma SevenQueued(limits: (nat, nat)) returns (moves: seq<Move>, s: System, h: History)
    ensures Reachable(s, limits, moves) && s.server == NewEndpoint(true, limits.1) && s.client.sess.limit == limits.0
    ensures var queue := [OPENING, StreamFrame(1, Data(NO_FLAGS, 1)), StreamFrame(1, DataChunk([7]))];
            Alone(s.client, h, queue, [], None, Sending(false, false, false))
    ensures PollNext(h.s).1.Blocked? && h.written == [7]
  {
    hide Act, CanAct, Step, Birth, PollNext, Reach;
    var s0 := Start(limits.0, limits.1);
    WroteSeven();
    moves, s := ClientTurn(limits, Op.Write([7]));
    h := Step(Birth(true), Op.Write([7]));
    Drained(s.client, h, []);
    h := Step(h, Poll);
    moves, s := Moves(s0, s, moves, ByClient(PollHead));
    Drained(s.client, h, s.client.sess.outQueue);
    h := Step(h, Poll);
    moves, s := Moves(s0, s, moves, ByClient(PollHead));
    Drained(s.client, h, s.client.sess.outQueue);
    h := Step(h, Poll);
    moves, s := Moves(s0, s, moves, ByClient(PollHead));
    Drained(s.client, h, s.client.sess.outQueue);
    moves, s := Moves(s0, s, moves, ByClient(PollHead));
    Served(s.client, h, s.client.sess.outQueue);
    moves, s := Moves(s0, s, moves, ByClient(EndServing));
    LimitStays(limits, moves, s);
  }

  lemma Lengths()
    ensures |Encode(OPENING)| == 12 && |Encode(StreamFrame(1, Data(NO_FLAGS, 1)))| == 12
    ensures |Encode(StreamFrame(1, DataChunk([7])))| == 1
  {
  }

  lemma NothingAtServer(x: Endpoint, limit: nat)
    requires x.sent == []
    ensures SideStill(NewEndpoint(true, limit), x)
  {
  }

  lemma WaitingClient(x: Endpoint, y: Endpoint, h: History, buffer: seq<byte>)
    requires Alone(x, h, [], buffer, None, Resting) && PollNext(h.s).1.Blocked? && y.sent == []
    ensures SideStill(x, y)
  {
    hide PollNext;
    NewReaderWaits();
  }

  lemma BothStill(s: System)
    requires SideStill(s.client, s.server) && SideStill(s.server, s.client)
    ensures Still(s)
  {
  }

  /** With room for it in the writer's buffer, a client's first poll takes in all its user wrote; the
      byte stream takes none of it, and both sides are still. From then on no poll of either side
      ever offers the bytes again, and the server never hears of them. */
  lemma BytesStranded(limits: (nat, nat)) returns (moves: seq<Move>, s: System)
    requires limits.0 > 24
    ensures Reachable(s, limits, moves) && Still(s) && |s.client.sess.buffer| == 25
    ensures 1 in s.client.runs && s.client.runs[1].written == [7] && 1 !in s.server.runs
    ensures forall more | SessionsOnly(more) && Reach(s, more).Some? ::
              SameBuffers(s, Reach(s, more).value) && !AtRest(Reach(s, more).value)
  {
    hide Act, CanAct, PollNext, Reach, Encode, Still, SideStill, AtRest;
    var s0 := Start(limits.0, limits.1);
    var h;
    moves, s, h := SevenQueued(limits);
    Lengths();
    Buffered(s.client, h, s.client.sess.outQueue, [], false);
    moves, s := Moves(s0, s, moves, ByClient(Offer(0)));
    moves, s := Moves(s0, s, moves, ByClient(StartSend));
    Buffered(s.client, h, s.client.sess.outQueue, s.client.sess.buffer, true);
    moves, s := Moves(s0, s, moves, ByClient(Offer(0)));
    moves, s := Moves(s0, s, moves, ByClient(StartSend));
    Buffered(s.client, h, s.client.sess.outQueue, s.client.sess.buffer, true);
    moves, s := Moves(s0, s, moves, ByClient(Offer(0)));
    moves, s := Moves(s0, s, moves, ByClient(StartSend));
    FlushedInVain(s.client, h, s.client.sess.buffer);
    moves, s := Moves(s0, s, moves, ByClient(Leave));
    moves, s := Moves(s0, s, moves, ByClient(Offer(0)));
    WaitingClient(s.client, s.server, h, s.client.sess.buffer);
    NothingAtServer(s.client, limits.1);
    BothStill(s);
    forall more | SessionsOnly(more) && Reach(s, more).Some?
      ensures SameBuffers(s, Reach(s, more).value) && !AtRest(Reach(s, more).value)
    {
      StrandedForGood(s, limits, moves, more);
    }
  }
}
