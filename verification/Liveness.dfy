/** Between two sessions work always runs out, and when there is none left, in the buffers neither,
    everything is delivered. */
module Liveness {
  import opened Wire
  import opened StreamModel
  import opened SessionModel
  import opened TwoEndpoints
  import opened Guarantees
  import SP = StreamProofs
  import EP = SessionProofs
  import Polls
  import Codec

  // --- How much work a stream still holds --------------------------------------------------

  function EventSize(e: StreamEvent): nat {
    if e.DataChunk? then |e.chunk| else HEADER_LEN
  }

  function EventWeight(e: StreamEvent): nat {
    4 * EventSize(e) + 2
  }

  function EventsWeight(es: seq<StreamEvent>): nat {
    if es == [] then 0 else EventWeight(es[0]) + EventsWeight(es[1..])
  }

  function UpWeight(cs: seq<Chunk>): nat {
    if cs == [] then 0 else 4 * |cs[0]| + 53 + UpWeight(cs[1..])
  }

  function StreamWeight(s: Stream): nat {
    EventsWeight(s.outs) + UpWeight(s.up) + (if s.local then 51 else 0) + s.recv + 1
  }

  lemma {:induction false} EventsSnoc(es: seq<StreamEvent>, e: StreamEvent)
    ensures EventsWeight(es + [e]) == EventsWeight(es) + EventWeight(e)
  {
    if es == [] {
      assert [] + [e] == [e] && [e][1..] == [];
    } else {
      assert (es + [e])[1..] == es[1..] + [e];
      EventsSnoc(es[1..], e);
    }
  }

  lemma CloseLocalWeight(s: Stream)
    ensures StreamWeight(CloseLocal(s)) <= StreamWeight(s)
  {
    EventsSnoc(s.outs, WindowUpdate(FIN, 0));
  }

  lemma TakeChunkWeight(s: Stream)
    requires s.up != []
    ensures StreamWeight(TakeChunk(s)) < StreamWeight(s)
  {
    var c, rest := s.up[0], s.(up := s.up[1..]);
    if c == [] {
      CloseLocalWeight(rest);
    } else {
      var d := Data(NO_FLAGS, |c| % 0x1_0000_0000);
      EventsSnoc(s.outs, d);
      EventsSnoc(s.outs + [d], DataChunk(c));
      assert s.outs + [d, DataChunk(c)] == s.outs + [d] + [DataChunk(c)];
    }
  }

  lemma TakeShorter(s: Stream)
    requires s.up != []
    ensures |TakeChunk(s).up| < |s.up|
  {
  }

  lemma {:induction false} FillWeight(s: Stream)
    ensures StreamWeight(Fill(s)) <= StreamWeight(s)
    decreases |s.up|
  {
    hide StreamWeight, TakeChunk;
    if s.send < CHUNK_CAPACITY {
    } else {
      if s.up != [] {
        TakeChunkWeight(s);
        TakeShorter(s);
        FillWeight(TakeChunk(s));
      } else {
        CloseLocalWeight(s);
      }
    }
  }

  /** An event taken from a head takes its weight along. */
  lemma PollWeight(s: Stream)
    ensures StreamWeight(PollNext(s).0) <= StreamWeight(s)
    ensures PollNext(s).1.Ready? ==> StreamWeight(PollNext(s).0) + EventWeight(PollNext(s).1.event) <= StreamWeight(s)
  {
    hide Fill, EventWeight, UpWeight;
    FillWeight(s);
  }

  lemma FlagsWeight(s: Stream, f: Flags)
    ensures StreamWeight(HandleFlags(s, f)) <= StreamWeight(s)
  {
    hide EventsWeight, UpWeight;
    CloseLocalWeight(s);
    SP.FlagsState(s, f);
    assert HandleFlags(s, f).recv == s.recv;
  }

  /** Input adds no work beyond one unit for every payload byte. */
  lemma InputWeight(s: Stream, e: StreamEvent)
    ensures StreamWeight(OnInputOrSame(s, e)) <= StreamWeight(s) + |Payload(e)|
  {
    hide UpWeight, HandleFlags, SendDown;
    if OnInput(s, e).Ok? {
      if e.DataChunk? {
        SP.ChunkEffect(s, e.chunk);
        EventsSnoc(s.outs, WindowUpdate(NO_FLAGS, (s.recv + |e.chunk|) % 0x1_0000_0000));
      } else {
        FlagsWeight(s, e.flags);
      }
    }
  }

  lemma NewWeight(e: StreamEvent)
    requires !e.DataChunk?
    ensures StreamWeight(OnInputOrSame(NewStream(false), e)) <= 102
  {
    hide OnInputOrSame;
    InputWeight(NewStream(false), e);
    var first := WindowUpdate(ACK, INITIAL_WINDOW);
    assert EventsWeight([first]) == EventWeight(first) + EventsWeight([first][1..]);
  }

  // --- Sums over the map of heads ----------------------------------------------------------

  ghost function Total(m: map<u32, Stream>): nat {
    if m == map[] then 0
    else
      var k :| k in m;
      StreamWeight(m[k]) + Total(m - {k})
  }

  lemma Fewer(m: map<u32, Stream>, k: u32)
    requires k in m
    ensures |m - {k}| < |m|
  {
    assert (m - {k}).Keys == m.Keys - {k};
    assert |m.Keys| == |(m - {k}).Keys| + 1;
  }

  lemma {:induction false} TotalWithout(m: map<u32, Stream>, k: u32)
    requires k in m
    ensures Total(m) == StreamWeight(m[k]) + Total(m - {k})
    decreases |m|
  {
    hide StreamWeight;
    var j :| j in m && Total(m) == StreamWeight(m[j]) + Total(m - {j});
    if j != k {
      assert |m - {j}| < |m| && |m - {k}| < |m| by { Fewer(m, j); Fewer(m, k); }
      TotalWithout(m - {j}, k);
      TotalWithout(m - {k}, j);
      assert m - {j} - {k} == m - {k} - {j};
    }
  }

  lemma TotalUpdate(m: map<u32, Stream>, k: u32, s: Stream)
    ensures Total(m[k := s]) == Total(m - {k}) + StreamWeight(s)
    ensures k in m ==> Total(m) == Total(m - {k}) + StreamWeight(m[k])
    ensures k !in m ==> Total(m) == Total(m - {k})
  {
    hide StreamWeight;
    TotalWithout(m[k := s], k);
    assert m[k := s] - {k} == m - {k};
    if k in m {
      TotalWithout(m, k);
    } else {
      assert m - {k} == m;
    }
  }

  // --- How much work the system still holds ------------------------------------------------

  function FrameWeight(f: Frame): nat {
    4 * |Encode(f)| + 1
  }

  function FramesWeight(fs: seq<Frame>): nat {
    if fs == [] then 0 else FrameWeight(fs[0]) + FramesWeight(fs[1..])
  }

  lemma {:induction false} FramesSnoc(fs: seq<Frame>, f: Frame)
    ensures FramesWeight(fs + [f]) == FramesWeight(fs) + FrameWeight(f)
  {
    hide FrameWeight;
    if fs == [] {
      assert [] + [f] == [f] && [f][1..] == [];
    } else {
      assert (fs + [f])[1..] == fs[1..] + [f];
      FramesSnoc(fs[1..], f);
    }
  }

  ghost function SessionWeight(s: Session): nat {
    4 * |s.buffer| + 2 * |Flat(s.reader.segments)| + (if s.reader.pending.Some? then 1 else 0)
      + FramesWeight(s.outQueue) + Total(s.streams)
  }

  function Unread(x: Endpoint, y: Endpoint): nat {
    if |y.got| <= |x.sent| then |x.sent| - |y.got| else 0
  }

  function Unaccepted(x: Endpoint, y: Endpoint): nat {
    |x.runs.Keys - y.runs.Keys|
  }

  /** Of the two endpoints, in either order. */
  ghost function PairWeight(x: Endpoint, y: Endpoint): nat {
    SessionWeight(x.sess) + SessionWeight(y.sess) + 3 * Unread(x, y) + 3 * Unread(y, x)
      + 200 * Unaccepted(x, y) + 200 * Unaccepted(y, x)
  }

  /** The session's own moves that get something done; the others only move `poll_next` along. */
  predicate Productive(x: Endpoint, l: Label) {
    match l
    case Offer(n) => n > 0
    case StartSend => true
    case Receive(_) => true
    case NextFrame => true
    case PollHead =>
      && x.sess.draining.Some? && x.sess.draining.value in x.sess.streams
      && PollNext(x.sess.streams[x.sess.draining.value]).1.Ready?
    case Remove(_) => true
    case _ => false
  }

  lemma EventFrame(id: u32, e: StreamEvent)
    ensures FrameWeight(StreamFrame(id, e)) + 1 == EventWeight(e)
  {
  }

  lemma PollSessionWeight(s: Session)
    requires Enabled(s, PollHead)
    ensures SessionWeight(Do(s, PollHead)) <= SessionWeight(s)
    ensures PollNext(s.streams[s.draining.value]).1.Ready? ==> SessionWeight(Do(s, PollHead)) < SessionWeight(s)
  {
    hide StreamWeight, PollNext, Flat, Encode, EncodeHeader, Total;
    var id := s.draining.value;
    var (after, polled) := PollNext(s.streams[id]);
    PollWeight(s.streams[id]);
    TotalUpdate(s.streams, id, after);
    if polled.Ready? {
      FramesSnoc(s.outQueue, StreamFrame(id, polled.event));
      EventFrame(id, polled.event);
    }
  }

  lemma SendWeight(s: Session)
    requires Enabled(s, StartSend)
    ensures SessionWeight(Do(s, StartSend)) < SessionWeight(s)
  {
    hide Flat, Total, Encode;
  }

  lemma RemoveWeight(s: Session, id: u32)
    requires Enabled(s, Remove(id))
    ensures SessionWeight(Do(s, Remove(id))) < SessionWeight(s)
  {
    hide Flat, Total, PollNext, EventsWeight, UpWeight;
    TotalUpdate(s.streams, id, s.streams[id]);
  }

  /** What a parsed frame has used up, with the payload in progress. */
  lemma ReaderWeight(r: Codec.Reader)
    requires NonEmpty(r.segments) && Codec.NextFrame(r).1.Parsed?
    ensures var (after, next) := Codec.NextFrame(r);
            var (was, now) := (if r.pending.Some? then 1 else 0, if after.pending.Some? then 1 else 0);
            if IsChunk(next.frame) then
              2 * |Flat(after.segments)| + now + |next.frame.event.chunk| < 2 * |Flat(r.segments)| + was
            else 2 * |Flat(after.segments)| + now < 2 * |Flat(r.segments)| + was
  {
    hide Flat, DecodeHeader, Codec.DropBytes;
    if r.pending.Some? {
      Codec.ChunkScans(r);
    } else {
      Codec.HeaderScans(r);
    }
  }

  /** A stream frame costs less than it gave, unless it creates a head. */
  lemma DispatchWeight(s: Session, f: Frame)
    requires f.StreamFrame?
    ensures !Accepts(s, f) ==> SessionWeight(Dispatch(s, f)) <= SessionWeight(s) + |Payload(f.event)|
    ensures Accepts(s, f) ==> SessionWeight(Dispatch(s, f)) <= SessionWeight(s) + 102
  {
    hide StreamWeight, OnInputOrSame, NewStream, Flat, Total;
    if f.id in s.streams {
      TotalUpdate(s.streams, f.id, OnInputOrSame(s.streams[f.id], f.event));
      InputWeight(s.streams[f.id], f.event);
    } else if Accepts(s, f) {
      TotalUpdate(s.streams, f.id, OnInputOrSame(NewStream(false), f.event));
      NewWeight(f.event);
    }
  }

  lemma ReadSessionWeight(s: Session)
    requires Enabled(s, NextFrame) && NonEmpty(s.reader.segments)
    requires Codec.NextFrame(s.reader).1.frame.StreamFrame?
    ensures var f := Codec.NextFrame(s.reader).1.frame;
            SessionWeight(Do(s, NextFrame)) < SessionWeight(s) + if Accepts(s, f) then 102 else 0
  {
    hide Codec.NextFrame, Dispatch, Flat, Total;
    var (reader, next) := Codec.NextFrame(s.reader);
    ReaderWeight(s.reader);
    DispatchWeight(s.(reader := reader), next.frame);
  }

  lemma ReceiveWeight(s: Session, c: Chunk)
    requires Enabled(s, Receive(c))
    ensures SessionWeight(Do(s, Receive(c))) == SessionWeight(s) + 2 * |c|
  {
    hide Flat, Total, Codec.NextFrame;
    FlatSnoc(s.reader.segments, c);
  }

  // --- Nothing but stream frames, and no parse error ---------------------------------------

  predicate OnlyStreams(fs: seq<Frame>) {
    forall i | 0 <= i < |fs| :: fs[i].StreamFrame?
  }

  lemma {:induction false} StreamTokens(fs: seq<Frame>)
    requires OnlyStreams(fs)
    ensures forall i | 0 <= i < |Tokens(fs)| :: Tokens(fs)[i].StreamToken?
  {
    hide ItemsOf;
    if fs == [] {
    } else {
      var n := |fs| - 1;
      StreamTokens(fs[..n]);
      assert fs == fs[..n] + [fs[n]];
      TokensSnoc(fs[..n], fs[n]);
    }
  }

  lemma NeverBad(p: Option<Codec.Pending>)
    ensures !Codec.StateOf(p).Bad?
  {
  }

  /** After one more call of `next_frame`, what has been parsed is still a prefix of what was sent. */
  lemma NextScans(x: Endpoint, y: Endpoint)
    requires EP.EInv(x) && EP.EInv(y) && x.got <= y.sent && !Codec.NextFrame(x.sess.reader).1.NeedMore?
    ensures var next := Codec.NextFrame(x.sess.reader).1;
            next.Parsed? && Tokens(x.inputs + [next.frame]) <= Tokens(y.started)
  {
    hide Codec.Scan, Codec.Read, Tokens, EncodeAll, Codec.WriteAll, Codec.NextFrame, Codec.Consumed, Flat;
    hide EP.Mirror, EP.RunsInv, EP.Lockstep, EP.Bounded;
    var used := EP.Used(x) + Codec.Consumed(x.sess.reader);
    Codec.NextTracks(EP.ReaderRun(x), x.got, EP.Used(x));
    StartedAccepted(y);
    Codec.ScanEncoded(y.started);
    assert used <= EncodeAll(y.started);
    Codec.ScanPrefix(Codec.Idle([]), used, EncodeAll(y.started));
    NeverBad(Codec.WriteAll(None, y.started).value);
  }

  lemma SessionShows(fs: seq<Frame>, f: Frame)
    ensures f.SessionFrame? ==>
              |Tokens(fs)| < |Tokens(fs + [f])| && Tokens(fs + [f])[|Tokens(fs)|].SessionToken?
  {
    TokensSnoc(fs, f);
  }

  /** Between conforming sessions the reader never meets an unknown type or a session frame. */
  lemma NextIsStream(x: Endpoint, y: Endpoint)
    requires EP.EInv(x) && EP.EInv(y) && x.got <= y.sent && OnlyStreams(Queued(y))
    requires !Codec.NextFrame(x.sess.reader).1.NeedMore?
    ensures Codec.NextFrame(x.sess.reader).1.Parsed? && Codec.NextFrame(x.sess.reader).1.frame.StreamFrame?
  {
    hide EP.EInv, Codec.NextFrame, Tokens;
    NextScans(x, y);
    SessionShows(x.inputs, Codec.NextFrame(x.sess.reader).1.frame);
    assert OnlyStreams(y.started) by { assert forall i | 0 <= i < |y.started| :: y.started[i] == Queued(y)[i]; }
    StreamTokens(y.started);
  }

  ghost predicate Busy(x: Endpoint, y: Endpoint, server: bool) {
    && Half(x, server) && Half(y, !server) && x.got <= y.sent && y.got <= x.sent
    && OnlyStreams(Queued(x)) && OnlyStreams(Queued(y))
  }

  lemma DispatchKeepsQueue(s: Session, f: Frame)
    requires f.StreamFrame?
    ensures Dispatch(s, f).outQueue == s.outQueue
  {
    hide OnInputOrSame, NewStream;
  }

  lemma OtherActions(x: Endpoint, a: Action)
    requires CanAct(x, a) && a != Internal(NextFrame) && OnlyStreams(Queued(x))
    ensures OnlyStreams(Queued(Act(x, a)))
  {
    hide PollNext, Codec.NextFrame, Step, Encode, NewStream;
    var q, q' := Queued(x), Queued(Act(x, a));
    if a == Internal(PollHead) && PollNext(x.sess.streams[x.sess.draining.value]).1.Ready? {
      assert q' == q + [q'[|q|]] && q'[|q|].StreamFrame?;
    } else {
      assert q' == q;
    }
  }

  lemma OnlyStreamsKept(x: Endpoint, y: Endpoint, server: bool, a: Action)
    requires Busy(x, y, server) && Fair(x, y, a)
    ensures OnlyStreams(Queued(Act(x, a)))
  {
    hide Half, PollNext, Codec.NextFrame, RunsAfterFrame, Step, Encode, Dispatch, NewStream;
    if a == Internal(NextFrame) {
      EInvOf(x, server);
      EInvOf(y, !server);
      NextIsStream(x, y);
      var (reader, next) := Codec.NextFrame(x.sess.reader);
      DispatchKeepsQueue(x.sess.(reader := reader), next.frame);
    } else {
      OtherActions(x, a);
    }
  }

  // --- Every productive move uses work up --------------------------------------------------

  lemma ReaderIsNonEmpty(x: Endpoint, server: bool)
    requires Half(x, server)
    ensures NonEmpty(x.sess.reader.segments)
  {
    hide Flat, Codec.Scan, Codec.Read, EP.Mirror, EP.RunsInv, EP.LinkOut, EP.Framed, EP.Lockstep, EP.Bounded, StreamInv;
  }

  lemma TakenFrom(mine: set<u32>, theirs: set<u32>, id: u32)
    requires id !in mine && id in theirs
    ensures |theirs - (mine + {id})| == |theirs - mine| - 1 && (mine + {id}) - theirs == mine - theirs
  {
    assert theirs - mine == (theirs - (mine + {id})) + {id};
  }

  lemma AcceptLess(x: Endpoint, y: Endpoint, id: u32)
    requires id !in x.runs && id in y.runs
    ensures |y.runs.Keys - (x.runs.Keys + {id})| == |y.runs.Keys - x.runs.Keys| - 1
    ensures (x.runs.Keys + {id}) - y.runs.Keys == x.runs.Keys - y.runs.Keys
  {
    TakenFrom(x.runs.Keys, y.runs.Keys, id);
  }

  lemma PairLess(x: Endpoint, x': Endpoint, y: Endpoint, id: u32, accepted: bool)
    requires x'.sent == x.sent && x'.got == x.got
    requires x'.runs.Keys == x.runs.Keys + if accepted then {id} else {}
    requires accepted ==> id !in x.runs && id in y.runs
    requires SessionWeight(x'.sess) < SessionWeight(x.sess) + if accepted then 102 else 0
    ensures PairWeight(x', y) < PairWeight(x, y)
  {
    hide SessionWeight;
    if accepted {
      AcceptLess(x, y, id);
    } else {
      assert x'.runs.Keys == x.runs.Keys;
    }
  }

  lemma ParsedKeys(x: Endpoint)
    requires CanAct(x, Internal(NextFrame)) && EP.EInv(x)
    ensures var (x', f) := (Act(x, Internal(NextFrame)), Codec.NextFrame(x.sess.reader).1.frame);
            && x'.sent == x.sent && x'.got == x.got && x'.sess == Do(x.sess, NextFrame)
            && x'.runs.Keys == x.runs.Keys + if Accepts(x.sess, f) then {f.id} else {}
  {
    hide Codec.NextFrame, Do, Step, Birth, EP.EInv;
    MirrorOf(x);
  }

  lemma AcceptedIsKnown(x: Endpoint, y: Endpoint, server: bool)
    requires Half(x, server) && Half(y, !server) && x.got <= y.sent && y.got <= x.sent
    requires CanAct(x, Internal(NextFrame)) && Accepts(x.sess, Codec.NextFrame(x.sess.reader).1.frame)
    ensures Codec.NextFrame(x.sess.reader).1.frame.id !in x.runs
    ensures Codec.NextFrame(x.sess.reader).1.frame.id in y.runs
  {
    hide Codec.NextFrame, Tokens, Project, Items, HandleInv, OnInput, Step, EP.EInv, Received, OnInputOrSame;
    var f := Codec.NextFrame(x.sess.reader).1.frame;
    var x' := Act(x, Internal(NextFrame));
    assert EP.EInv(x') by {
      EInvOf(x, server);
      EP.ActInv(x, Internal(NextFrame));
    }
    OtherStream(x, y, server);
    ArrivedSnoc(x, f.id);
    ArrivedWasSent(x', y, f.id);
    HeaderItems(f.event);
    assert StreamInv(y, f.id, !server);
  }

  lemma ParseWeight(x: Endpoint, y: Endpoint, server: bool)
    requires Busy(x, y, server) && Fair(x, y, Internal(NextFrame))
    ensures PairWeight(Act(x, Internal(NextFrame)), y) < PairWeight(x, y)
  {
    hide Half, SessionWeight, PairWeight, Codec.NextFrame, Do, Act, OnlyStreams;
    EInvOf(x, server);
    EInvOf(y, !server);
    NextIsStream(x, y);
    ReaderIsNonEmpty(x, server);
    ReadSessionWeight(x.sess);
    ParsedKeys(x);
    var f := Codec.NextFrame(x.sess.reader).1.frame;
    if Accepts(x.sess, f) {
      AcceptedIsKnown(x, y, server);
    }
    PairLess(x, Act(x, Internal(NextFrame)), y, f.id, Accepts(x.sess, f));
  }

  lemma PolledKeys(x: Endpoint)
    requires CanAct(x, Internal(PollHead))
    ensures Act(x, Internal(PollHead)).runs.Keys == x.runs.Keys
    ensures Act(x, Internal(PollHead)).sent == x.sent && Act(x, Internal(PollHead)).got == x.got
  {
    hide Step, PollNext;
  }

  predicate Changing(l: Label) {
    l.Offer? || l.StartSend? || l.Receive? || l.NextFrame? || l.PollHead? || l.Remove?
  }

  lemma MovesOnly(x: Endpoint, l: Label)
    requires Enabled(x.sess, l) && OwnStep(l) && !Changing(l)
    ensures var x' := Act(x, Internal(l));
            && x'.runs == x.runs && x'.sent == x.sent && x'.got == x.got && !Productive(x, l)
            && x'.sess.streams == x.sess.streams && x'.sess.outQueue == x.sess.outQueue
            && x'.sess.buffer == x.sess.buffer && x'.sess.reader == x.sess.reader
  {
    hide PollNext, Codec.NextFrame, SendReady;
  }

  lemma SameWork(s: Session, t: Session)
    requires s.streams == t.streams && s.outQueue == t.outQueue && s.buffer == t.buffer && s.reader == t.reader
    ensures SessionWeight(s) == SessionWeight(t)
  {
    hide Total, Flat, FramesWeight;
  }

  /** A label that only moves `poll_next` along leaves the work as it is. */
  lemma MovesAlong(x: Endpoint, y: Endpoint, l: Label)
    requires Enabled(x.sess, l) && OwnStep(l) && !Changing(l)
    ensures PairWeight(Act(x, Internal(l)), y) == PairWeight(x, y)
    ensures !Productive(x, l)
  {
    hide Act, Enabled, SessionWeight, Productive;
    MovesOnly(x, l);
    SameWork(x.sess, Act(x, Internal(l)).sess);
  }

  lemma OfferWeight(x: Endpoint, y: Endpoint, n: nat)
    requires Enabled(x.sess, Offer(n)) && y.got <= x.sent
    ensures var x' := Act(x, Internal(Offer(n)));
            PairWeight(x', y) <= PairWeight(x, y) && (n > 0 ==> PairWeight(x', y) < PairWeight(x, y))
  {
    hide Total, Flat, FramesWeight, SendReady;
  }

  lemma ChangingWeight(x: Endpoint, y: Endpoint, server: bool, l: Label)
    requires Busy(x, y, server) && Fair(x, y, Internal(l)) && Changing(l)
    ensures PairWeight(Act(x, Internal(l)), y) <= PairWeight(x, y)
    ensures Productive(x, l) ==> PairWeight(Act(x, Internal(l)), y) < PairWeight(x, y)
  {
    hide Half, Codec.NextFrame, PollNext, Step, Birth, Encode, Total, Flat, SessionWeight;
    match l
    case NextFrame => ParseWeight(x, y, server);
    case StartSend => SendWeight(x.sess);
    case Offer(n) => OfferWeight(x, y, n);
    case Receive(c) => ReceiveWeight(x.sess, c);
    case PollHead =>
      PollSessionWeight(x.sess);
      PolledKeys(x);
    case Remove(id) => RemoveWeight(x.sess, id);
  }

  /** No move of a session's own adds work, and every productive one takes some away. */
  lemma OwnMoveWeight(x: Endpoint, y: Endpoint, server: bool, l: Label)
    requires Busy(x, y, server) && Fair(x, y, Internal(l)) && OwnStep(l)
    ensures PairWeight(Act(x, Internal(l)), y) <= PairWeight(x, y)
    ensures Productive(x, l) ==> PairWeight(Act(x, Internal(l)), y) < PairWeight(x, y)
  {
    hide Half, Codec.NextFrame, PollNext, Step, Birth, Encode, Total, Flat, SendReady, Offers, Leaves;
    if Changing(l) {
      ChangingWeight(x, y, server, l);
    } else {
      MovesAlong(x, y, l);
    }
  }

  // --- Runs of the sessions alone ----------------------------------------------------------

  ghost function Weight(s: System): nat {
    PairWeight(s.client, s.server)
  }

  ghost predicate Working(s: System) {
    Busy(s.client, s.server, false)
  }

  /** Moves of the two sessions and of readers, with no user writing, closing or opening. */
  predicate SessionMove(m: Move) {
    m.action.Internal? ==> OwnStep(m.action.step)
  }

  predicate ProductiveMove(s: System, m: Move) {
    m.action.Internal? && Productive(Side(s, m.byServer), m.action.step)
  }

  /** How many of some moves got something done. */
  function Productives(s: System, moves: seq<Move>): nat {
    if moves == [] then 0
    else
      var front, m := moves[..|moves| - 1], moves[|moves| - 1];
      Productives(s, front) + if Reach(s, front).Some? && ProductiveMove(Reach(s, front).value, m) then 1 else 0
  }

  predicate SessionsOnly(moves: seq<Move>) {
    forall i | 0 <= i < |moves| :: SessionMove(moves[i])
  }

  lemma BusyFlip(x: Endpoint, y: Endpoint, server: bool)
    requires Busy(x, y, server)
    ensures Busy(y, x, !server) && PairWeight(x, y) == PairWeight(y, x)
  {
    hide Half, SessionWeight;
  }

  lemma BusyKept(x: Endpoint, y: Endpoint, server: bool, a: Action)
    requires Busy(x, y, server) && Fair(x, y, a)
    ensures Busy(Act(x, a), y, server)
  {
    hide Half, Act, CanAct, Queued;
    ActHalf(x, y, server, a);
    OnlyStreamsKept(x, y, server, a);
  }

  lemma ActionWeight(x: Endpoint, y: Endpoint, server: bool, a: Action)
    requires Busy(x, y, server) && Fair(x, y, a) && (a.Internal? ==> OwnStep(a.step))
    ensures PairWeight(Act(x, a), y) <= PairWeight(x, y)
    ensures a.Internal? && Productive(x, a.step) ==> PairWeight(Act(x, a), y) < PairWeight(x, y)
  {
    hide Busy, Fair, Productive, SessionWeight;
    if a.Internal? {
      OwnMoveWeight(x, y, server, a.step);
    }
  }

  lemma MoveWorks(s: System, m: Move)
    requires Working(s) && Allowed(s, m)
    ensures Working(Apply(s, m))
    ensures SessionMove(m) ==> Weight(Apply(s, m)) + (if ProductiveMove(s, m) then 1 else 0) <= Weight(s)
  {
    hide Busy, Act, CanAct, PairWeight, Productive;
    BusyFlip(s.client, s.server, false);
    if m.byServer {
      BusyKept(s.server, s.client, true, m.action);
      BusyFlip(Act(s.server, m.action), s.client, true);
      if SessionMove(m) {
        ActionWeight(s.server, s.client, true, m.action);
      }
    } else {
      BusyKept(s.client, s.server, false, m.action);
      if SessionMove(m) {
        ActionWeight(s.client, s.server, false, m.action);
      }
    }
  }

  /** Work runs out: however the sessions' moves are interleaved, the number of productive ones
      is bounded by the weight of the state they start from. */
  lemma {:induction false} WorkRunsOut(s: System, moves: seq<Move>)
    requires Working(s) && Reach(s, moves).Some? && SessionsOnly(moves)
    ensures Working(Reach(s, moves).value)
    ensures Productives(s, moves) + Weight(Reach(s, moves).value) <= Weight(s)
  {
    hide Working, Weight, Allowed, Apply, ProductiveMove, SessionMove;
    if moves == [] {
    } else {
      var front, m := moves[..|moves| - 1], moves[|moves| - 1];
      WorkRunsOut(s, front);
      MoveWorks(Reach(s, front).value, m);
    }
  }

  lemma {:induction false} ReachWorks(s: System, moves: seq<Move>)
    requires Working(s) && Reach(s, moves).Some?
    ensures Working(Reach(s, moves).value)
  {
    hide Working, Allowed, Apply;
    if moves == [] {
    } else {
      ReachWorks(s, moves[..|moves| - 1]);
      MoveWorks(Reach(s, moves[..|moves| - 1]).value, moves[|moves| - 1]);
    }
  }

  lemma ReachableWorks(s: System, limits: (nat, nat), moves: seq<Move>)
    requires Reachable(s, limits, moves)
    ensures Working(s)
  {
    hide Half;
    StartInv(limits.0, limits.1);
    ReachWorks(Start(limits.0, limits.1), moves);
  }

  // --- Rest --------------------------------------------------------------------------------

  /** A side that polls will leave as it is: nothing queued, on the wire to it or unparsed, no head
      with anything to say or waiting to be removed, and no flush due. Its buffer is another matter. */
  predicate SideStill(x: Endpoint, y: Endpoint) {
    && x.sess.outQueue == [] && |x.got| >= |y.sent| && !Polls.HasAsked(x.sess.phase)
    && Codec.NextFrame(x.sess.reader).1.NeedMore?
    && forall id | id in x.sess.streams :: PollNext(x.sess.streams[id]).1.Blocked?
  }

  predicate Still(s: System) {
    SideStill(s.client, s.server) && SideStill(s.server, s.client)
  }

  /** A side with nothing left to do, in its buffer neither. */
  predicate SideAtRest(x: Endpoint, y: Endpoint) {
    SideStill(x, y) && x.sess.buffer == []
  }

  predicate AtRest(s: System) {
    SideAtRest(s.client, s.server) && SideAtRest(s.server, s.client)
  }

  /** Bytes are left in a buffer. */
  predicate Stranded(s: System) {
    s.client.sess.buffer != [] || s.server.sess.buffer != []
  }

  lemma ReachConcat(s: System, moves: seq<Move>, m: Move)
    requires Reach(s, moves).Some? && Allowed(Reach(s, moves).value, m)
    ensures Reach(s, moves + [m]) == Some(Apply(Reach(s, moves).value, m))
    ensures Productives(s, moves + [m])
         == Productives(s, moves) + if ProductiveMove(Reach(s, moves).value, m) then 1 else 0
  {
    hide Allowed, Apply, ProductiveMove;
    assert (moves + [m])[..|moves + [m]| - 1] == moves;
  }

  lemma MirrorOfBusy(x: Endpoint, y: Endpoint, server: bool)
    requires Busy(x, y, server)
    ensures EP.Mirror(x)
  {
    hide EP.EInv, StreamInv;
    MirrorOf(x);
  }

  lemma {:induction false} ReachAppend(s: System, a: seq<Move>, b: seq<Move>)
    requires Reach(s, a).Some?
    ensures Reach(s, a + b) == Reach(Reach(s, a).value, b)
  {
    hide Allowed, Apply;
    if b == [] {
      assert a + b == a;
    } else {
      var n := |b| - 1;
      assert (a + b)[..|a + b| - 1] == a + b[..n];
      ReachAppend(s, a, b[..n]);
    }
  }

  lemma ReachOne(s: System, m: Move)
    requires Allowed(s, m)
    ensures Reach(s, [m]) == Some(Apply(s, m))
  {
    hide Allowed, Apply;
    assert [m][..0] == [] && Reach(s, []) == Some(s);
  }

  lemma BusySide(s: System, server: bool)
    requires Working(s)
    ensures Busy(Side(s, server), Side(s, !server), server)
  {
    hide Busy;
    BusyFlip(s.client, s.server, false);
  }

  lemma SideMove(s: System, server: bool, l: Label)
    requires Fair(Side(s, server), Side(s, !server), Internal(l))
    ensures var m := Move(server, Internal(l));
            && Allowed(s, m) && Side(Apply(s, m), !server) == Side(s, !server)
            && Side(Apply(s, m), server) == Act(Side(s, server), Internal(l))
  {
    hide Act, CanAct;
  }

  // --- At rest everything is delivered -----------------------------------------------------

  lemma BlockedIsEmpty(s: Stream)
    requires PollNext(s).1.Blocked?
    ensures s.outs == []
  {
    hide Fill;
  }

  /** At rest nothing is in flight: what has been sent has arrived. */
  lemma RestIsQuiet(x: Endpoint, y: Endpoint, server: bool, id: u32)
    requires Busy(x, y, server) && SideAtRest(x, y) && SideAtRest(y, x)
    ensures Sent(x, id) == Arrived(y, id)
    ensures id in x.sess.streams ==> |y.got| <= |x.sent| && InFlight(x, y, id) == [] && Idle(x, id)
    ensures id in x.sess.streams ==> x.sess.streams[id].outs == []
  {
    hide Half, Codec.NextFrame, Codec.Read, Codec.StateOf, Flat, OnlyStreams, PollNext;
    EInvOf(x, server);
    EInvOf(y, !server);
    SentSplits(x, y, id);
    Codec.NeedMoreScans(y.sess.reader);
    var segments := Flat(y.sess.reader.segments);
    assert x.sent[|y.got|..] == [] && segments + [] + [] == segments;
    if id in x.sess.streams {
      BlockedIsEmpty(x.sess.streams[id]);
    }
  }

  /** An opener that closed its side before hearing from the peer: its head is gone and takes
      nothing any more. */
  predicate Deaf(y: Endpoint, id: u32)
    requires id in y.runs
  {
    id !in y.sess.streams && y.runs[id].opener && Received(y.runs[id]) == []
  }

  predicate AllThere(h: History, peer: Stream) {
    Flat(peer.down) == h.written && (h.s.upClosed ==> peer.down != [] && peer.down[|peer.down| - 1] == [])
  }

  lemma StreamInvOf(y: Endpoint, id: u32, server: bool)
    requires Half(y, server)
    ensures StreamInv(y, id, server)
  {
    hide EP.EInv;
  }

  lemma SomethingEmitted(h: History)
    requires SP.Inv(h)
    ensures Emitted(h) != []
  {
  }

  lemma ShapeOfBusy(x: Endpoint, y: Endpoint, server: bool, id: u32)
    requires Busy(x, y, server) && id in x.runs
    ensures Emitted(x.runs[id]) != []
  {
    hide EP.EInv, StreamInv;
    ShapeOf(x, id);
    SomethingEmitted(x.runs[id]);
  }

  /** At rest a stream is known on both sides, with everything sent on it received. */
  lemma RestIsKnown(x: Endpoint, y: Endpoint, server: bool, id: u32)
    requires Busy(x, y, server) && SideAtRest(x, y) && SideAtRest(y, x) && id in x.runs
    ensures id in y.runs && Arrived(y, id) == Emitted(x.runs[id])
  {
    hide Half, EP.EInv, SideAtRest, HandleInv, OnlyStreams, Project, Tokens, SP.Inv;
    RestIsQuiet(x, y, server, id);
    StreamOf(x, id, server);
    MirrorOfBusy(x, y, server);
    var h := x.runs[id];
    assert h.popped + h.s.outs == h.popped;
    ShapeOfBusy(x, y, server, id);
    assert StreamInv(y, id, !server) by { StreamInvOf(y, id, !server); }
    if Own(id, !server) && id !in y.runs {
      FreshId(y, x, !server, id);
    }
  }

  /** The peer's head is gone: it was told of the end, or never heard anything. */
  lemma GoneIsDelivered(x: Endpoint, y: Endpoint, server: bool, id: u32)
    requires Busy(x, y, server) && id in x.runs && id in y.runs && id !in y.sess.streams && !Deaf(y, id)
    ensures !y.runs[id].s.userGone ==> AllThere(x.runs[id], y.runs[id].s)
  {
    hide Half, HandleInv, OnlyStreams, Received, Emitted, Bytes, HasFin, SP.GoodPeer, Flat;
    hide SP.CapsInv, SP.CreditInv, SP.DataInv, SP.ShapeInv, SP.PairedInv, SP.SealInv;
    StreamOf(y, id, !server);
    PeerIsGood(y, x, !server, id);
  }

  /** The receiving head is up and the sending one has said its FIN. */
  lemma FinIsDelivered(x: Endpoint, y: Endpoint, server: bool, id: u32)
    requires Busy(x, y, server) && SideAtRest(x, y) && SideAtRest(y, x)
    requires id in x.runs && id !in x.sess.streams && id in y.sess.streams
    ensures id in y.runs && (!y.runs[id].s.userGone ==> AllThere(x.runs[id], y.runs[id].s))
  {
    hide Half, SideAtRest, HandleInv, OnlyStreams, Received, Emitted, SP.Inv, SP.GoodPeer;
    RestIsKnown(x, y, server, id);
    StreamOf(x, id, server);
    StreamOf(y, id, !server);
    LiveStreamOf(y, id, !server);
    OutputOf(x, y, server, id);
    ClosedIsEmpty(x, y, server, id);
    PeerIsGood(y, x, !server, id);
    Delivered(x.runs[id], y.runs[id]);
  }

  predicate Silent(h: History) {
    h.written == [] && !h.s.upClosed
  }

  /** A deaf opener has been given nothing. */
  lemma DeafIsEmpty(x: Endpoint, y: Endpoint, server: bool, id: u32)
    requires Busy(x, y, server) && id in x.runs && id in y.runs && Deaf(y, id)
    ensures AllThere(x.runs[id], y.runs[id].s) <==> Silent(x.runs[id])
  {
    hide Half, HandleInv, OnlyStreams, Received, Emitted, SP.GoodPeer;
    hide SP.CapsInv, SP.CreditInv, SP.DataInv, SP.ShapeInv, SP.PairedInv, SP.SealInv;
    StreamOf(y, id, !server);
    PeerIsGood(y, x, !server, id);
    Finless(Received(y.runs[id]));
    assert Flat(y.runs[id].s.down) == [] by { NoOctets(Received(y.runs[id])); }
  }

  /** What comes of a stream's direction from `x` to `y`, if the user at `y` is still there: all
      that was written and the closing are delivered, exactly unless `y` is deaf to something. */
  predicate Settles(x: Endpoint, y: Endpoint, id: u32)
    requires id in x.runs && id in y.runs
  {
    !y.runs[id].s.userGone ==> (AllThere(x.runs[id], y.runs[id].s) <==> !Deaf(y, id) || Silent(x.runs[id]))
  }

  lemma BothUp(s: System, limits: (nat, nat), moves: seq<Move>, server: bool, id: u32)
    requires Reachable(s, limits, moves) && AtRest(s)
    requires id in Side(s, server).sess.streams && id in Side(s, !server).sess.streams
    ensures id in Side(s, server).runs && id in Side(s, !server).runs
    ensures !Side(s, !server).runs[id].s.userGone ==>
              AllThere(Side(s, server).runs[id], Side(s, !server).runs[id].s)
  {
    hide Busy, SideAtRest, InFlight, Reachable, Idle;
    ReachableWorks(s, limits, moves);
    BusySide(s, server);
    BusySide(s, !server);
    RestIsQuiet(Side(s, server), Side(s, !server), server, id);
    RestIsQuiet(Side(s, !server), Side(s, server), !server, id);
    RestMeansDelivered(s, limits, moves, server, id);
  }

  /** At rest, whatever a user ever wrote on a stream has been delivered to the other side's user,
      and its closing too, unless that user is gone or had closed before hearing anything. */
  lemma RestIsDelivered(s: System, limits: (nat, nat), moves: seq<Move>, server: bool, id: u32)
    requires Reachable(s, limits, moves) && AtRest(s) && id in Side(s, server).runs
    ensures id in Side(s, !server).runs && Settles(Side(s, server), Side(s, !server), id)
  {
    hide Busy, SideAtRest, InFlight, Reachable, Deaf, AllThere, Silent, Idle;
    ReachableWorks(s, limits, moves);
    BusySide(s, server);
    BusySide(s, !server);
    var x, y := Side(s, server), Side(s, !server);
    RestIsKnown(x, y, server, id);
    if Deaf(y, id) {
      DeafIsEmpty(x, y, server, id);
    } else if id !in y.sess.streams {
      GoneIsDelivered(x, y, server, id);
    } else if id !in x.sess.streams {
      FinIsDelivered(x, y, server, id);
    } else {
      BothUp(s, limits, moves, server, id);
    }
  }

  // --- Delivery ----------------------------------------------------------------------------

  /** What sessions do by themselves changes nothing a user has written or closed. */
  predicate SameUsers(x: Endpoint, x': Endpoint) {
    forall id | id in x.runs ::
      id in x'.runs && x'.runs[id].written == x.runs[id].written && x'.runs[id].s.userGone == x.runs[id].s.userGone
  }

  lemma FlagsKeepUser(s: Stream, f: Flags)
    ensures HandleFlags(s, f).userGone == s.userGone
  {
  }

  lemma InputKeepsUser(s: Stream, e: StreamEvent)
    ensures OnInputOrSame(s, e).userGone == s.userGone
  {
    hide HandleFlags, SendDown, MarkReceived;
    if OnInput(s, e).Ok? {
      if e.DataChunk? {
        SP.ChunkEffect(s, e.chunk);
      } else {
        FlagsKeepUser(s, e.flags);
      }
    }
  }

  lemma StepKeepsUser(h: History, e: StreamEvent)
    ensures Step(h, Input(e)).written == h.written && Step(h, Input(e)).s.userGone == h.s.userGone
    ensures Step(h, Poll).written == h.written && Step(h, Poll).s.userGone == h.s.userGone
  {
    hide OnInput, PollNext;
    InputKeepsUser(h.s, e);
    SP.PollKeeps(h.s);
  }

  lemma FrameKeepsUsers(x: Endpoint, y: Endpoint, server: bool)
    requires Busy(x, y, server) && Fair(x, y, Internal(NextFrame))
    ensures SameUsers(x, Act(x, Internal(NextFrame)))
  {
    hide Half, Codec.NextFrame, Step, Birth, Dispatch;
    var f := Codec.NextFrame(x.sess.reader).1.frame;
    if f.StreamFrame? && f.id in x.sess.streams && f.id in x.runs {
      StepKeepsUser(x.runs[f.id], f.event);
    } else if Accepts(x.sess, f) {
      AcceptedIsKnown(x, y, server);
    }
  }

  lemma UsersKept(x: Endpoint, y: Endpoint, server: bool, a: Action)
    requires Busy(x, y, server) && Fair(x, y, a) && (a.Internal? ==> OwnStep(a.step))
    ensures SameUsers(x, Act(x, a))
  {
    hide Half, Codec.NextFrame, PollNext, Step, Birth, Encode, Dispatch, RunsAfterFrame, Taken;
    if a == Internal(NextFrame) {
      FrameKeepsUsers(x, y, server);
    } else if a == Internal(PollHead) {
      StepKeepsUser(x.runs[x.sess.draining.value], DataChunk([]));
    }
  }

  lemma MoveKeepsUsers(s: System, m: Move)
    requires Working(s) && Allowed(s, m) && SessionMove(m)
    ensures SameUsers(s.client, Apply(s, m).client) && SameUsers(s.server, Apply(s, m).server)
  {
    hide Busy, Act, CanAct;
    BusySide(s, m.byServer);
    UsersKept(Side(s, m.byServer), Side(s, !m.byServer), m.byServer, m.action);
  }

  lemma {:induction false} RunKeepsUsers(s: System, moves: seq<Move>)
    requires Working(s) && Reach(s, moves).Some? && SessionsOnly(moves)
    ensures SameUsers(s.client, Reach(s, moves).value.client) && SameUsers(s.server, Reach(s, moves).value.server)
  {
    hide Busy, Fair, Act, CanAct;
    if moves == [] {
    } else {
      var front, m := moves[..|moves| - 1], moves[|moves| - 1];
      RunKeepsUsers(s, front);
      ReachWorks(s, front);
      MoveKeepsUsers(Reach(s, front).value, m);
    }
  }
}
