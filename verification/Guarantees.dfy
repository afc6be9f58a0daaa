/** What two sessions of this implementation guarantee their users, in every reachable state. */
module Guarantees {
  import opened Wire
  import opened StreamModel
  import opened SessionModel
  import opened TwoEndpoints
  import SP = StreamProofs
  import EG = EndpointGuarantees
  import HG = HeadGuarantees
  import EP = SessionProofs
  import Codec

  predicate Reachable(s: System, limits: (nat, nat), moves: seq<Move>) {
    Reach(Start(limits.0, limits.1), moves) == Some(s)
  }

  function Side(s: System, server: bool): Endpoint {
    if server then s.server else s.client
  }

  lemma Halves(s: System, limits: (nat, nat), moves: seq<Move>, server: bool)
    requires Reachable(s, limits, moves)
    ensures Half(Side(s, server), server) && Half(Side(s, !server), !server)
    ensures Side(s, server).got <= Side(s, !server).sent && Side(s, !server).got <= Side(s, server).sent
  {
    hide Half;
    StartInv(limits.0, limits.1);
    ReachInv(Start(limits.0, limits.1), moves);
  }

  // --- End-to-end delivery -----------------------------------------------------------------

  function WrittenBy(e: Endpoint, id: u32): seq<byte> {
    if id in e.runs then e.runs[id].written else []
  }

  lemma BytesPrefix(xs: seq<Item>, ys: seq<Item>)
    requires xs <= ys
    ensures Bytes(xs) <= Bytes(ys)
  {
    assert ys == xs + ys[|xs|..];
    FlatMapConcat(OctetOf, xs, ys[|xs|..]);
  }

  lemma FlatPrefix(cs: seq<Chunk>, k: nat)
    requires k <= |cs|
    ensures Flat(cs[..k]) <= Flat(cs)
  {
    assert cs == cs[..k] + cs[k..];
    FlatMapConcat((c: Chunk) => c, cs[..k], cs[k..]);
  }

  lemma StreamOf(e: Endpoint, id: u32, server: bool)
    requires Half(e, server) && id in e.runs
    ensures Known(e, id, server) && SP.Inv(e.runs[id])
  {
    hide EP.EInv, SP.Inv;
    ShapeOf(e, id);
    assert StreamInv(e, id, server);
  }

  lemma SentIsWritten(h: History)
    requires SP.Inv(h)
    ensures Bytes(Emitted(h)) <= h.written
  {
  }

  /** What has been put into a user's channel is a prefix of what the peer's user wrote. */
  lemma DeliveredIsWritten(x: Endpoint, y: Endpoint, server: bool, id: u32)
    requires Half(x, server) && Half(y, !server) && x.got <= y.sent && id in x.runs
    ensures Flat(x.runs[id].s.down) <= WrittenBy(y, id)
  {
    hide Half, EP.EInv, HandleInv, Items, Emitted;
    hide SP.CapsInv, SP.CreditInv, SP.ShapeInv, SP.PairedInv, SP.CloseInv, SP.SealInv;
    StreamOf(x, id, server);
    var h := x.runs[id];
    if Received(h) != [] {
      Peers(x, y, server, id);
      BytesPrefix(Received(h), Emitted(y.runs[id]));
      StreamOf(y, id, !server);
      SentIsWritten(y.runs[id]);
    }
  }

  lemma ReadIsDelivered(h: Handle, down: seq<Chunk>)
    requires HandleInv(h, down)
    ensures h.read <= Flat(down)
  {
    FlatPrefix(down, h.taken);
  }

  /** In every reachable state, for every stream, either side's user has read a prefix of what
      the other side's user wrote on that stream. */
  lemma UsersReadWhatWasWritten(s: System, limits: (nat, nat), moves: seq<Move>, server: bool, id: u32)
    requires Reachable(s, limits, moves) && id in Side(s, server).runs
    ensures id in Side(s, server).handles
    ensures Side(s, server).handles[id].read <= WrittenBy(Side(s, !server), id)
  {
    hide Half, HandleInv, Flat, SP.Inv;
    Halves(s, limits, moves, server);
    var x := Side(s, server);
    StreamOf(x, id, server);
    DeliveredIsWritten(x, Side(s, !server), server, id);
    ReadIsDelivered(x.handles[id], x.runs[id].s.down);
  }

  // --- End of stream -----------------------------------------------------------------------

  lemma NoReset(xs: seq<Item>, ys: seq<Item>, opener: bool)
    requires xs <= ys && Conforming(ys, opener)
    ensures Conforming(xs, opener) && !HasRst(xs) && SP.NoAckAfterRst(xs)
  {
    forall i | 0 <= i < |xs| ensures !FlagsOf(xs[i]).rst {
      assert xs[i] == ys[i];
      assert i > 0 ==> Plain(ys[i]);
    }
  }

  lemma {:induction false} NoOctets(xs: seq<Item>)
    requires forall i | 0 <= i < |xs| :: !IsData(xs[i])
    ensures Bytes(xs) == []
  {
    if xs == [] {
    } else {
      NoOctets(xs[..|xs| - 1]);
    }
  }

  lemma QuietAfterFin(xs: seq<Item>, ys: seq<Item>)
    requires xs <= ys && Quiet(ys) && HasFin(xs)
    ensures Quiet(xs) && HasFin(ys) && Bytes(xs) == Bytes(ys)
  {
    var k :| 0 <= k < |xs| && FlagsOf(xs[k]).fin;
    assert FlagsOf(ys[k]).fin;
    var more := ys[|xs|..];
    assert ys == xs + more;
    FlatMapConcat(OctetOf, xs, more);
    NoOctets(more);
  }

  lemma QuietPrefix(xs: seq<Item>, ys: seq<Item>)
    requires xs <= ys && Quiet(ys)
    ensures Quiet(xs)
  {
  }

  lemma NothingIsFine(opener: bool)
    ensures Conforming([], opener) && !HasRst([]) && SP.NoAckAfterRst([]) && Quiet([])
  {
  }

  /** Between conforming sides each one's output ends with its FIN, behind everything its user wrote. */
  lemma OutputOf(x: Endpoint, y: Endpoint, server: bool, id: u32)
    requires Half(x, server) && Half(y, !server) && x.got <= y.sent && id in x.runs
    ensures var h := x.runs[id];
            && Conforming(Received(h), !h.opener) && Quiet(Emitted(h))
            && (HasFin(Emitted(h)) ==> h.s.upClosed && h.s.up == [] && Bytes(Emitted(h)) == h.written)
  {
    hide Half, HandleInv, Items, Bytes, Quiet, HasFin, HasRst, Conforming, Project, Tokens;
    hide SP.NoAckAfterRst, SP.PairedInv, SP.CreditInv;
    StreamOf(x, id, server);
    var h := x.runs[id];
    if Received(h) != [] {
      Peers(x, y, server, id);
      StreamOf(y, id, !server);
      NoReset(Received(h), Emitted(y.runs[id]), y.runs[id].opener);
    } else {
      NothingIsFine(!h.opener);
    }
  }

  lemma Finless(xs: seq<Item>)
    requires xs == []
    ensures !HasFin(xs)
  {
  }

  lemma PeerIsGood(x: Endpoint, y: Endpoint, server: bool, id: u32)
    requires Half(x, server) && Half(y, !server) && x.got <= y.sent && y.got <= x.sent && id in x.runs
    ensures SP.GoodPeer(x.runs[id])
    ensures HasFin(Received(x.runs[id])) ==>
              && id in y.runs && y.runs[id].s.upClosed
              && Bytes(Received(x.runs[id])) == y.runs[id].written
  {
    hide Half, Received, Emitted, Bytes, Quiet, HasFin, Conforming;
    OutputOf(x, y, server, id);
    var xs := Received(x.runs[id]);
    if xs == [] {
      NothingIsFine(true);
      assert !HasFin(xs) by { Finless(xs); }
    } else {
      Peers(x, y, server, id);
      OutputOf(y, x, !server, id);
      QuietPrefix(xs, Emitted(y.runs[id]));
      if HasFin(xs) {
        QuietAfterFin(xs, Emitted(y.runs[id]));
      }
    }
  }

  /** The end of a stream is reported only after the peer's user closed its side, and only to a
      user that has read everything the peer's user wrote. */
  lemma EndOfStreamIsTheEnd(s: System, limits: (nat, nat), moves: seq<Move>, server: bool, id: u32)
    requires Reachable(s, limits, moves) && id in Side(s, server).runs && id in Side(s, server).handles
    requires Side(s, server).handles[id].eof
    ensures id in Side(s, !server).runs && Side(s, !server).runs[id].s.upClosed
    ensures Side(s, server).handles[id].read == WrittenBy(Side(s, !server), id)
  {
    hide Half, Flat, Bytes, SP.GoodPeer, Received, SP.PairedInv, SP.CreditInv, SP.SealInv, SP.ShapeInv;
    Halves(s, limits, moves, server);
    var x, y := Side(s, server), Side(s, !server);
    StreamOf(x, id, server);
    PeerIsGood(x, y, server, id);
    var h, down := x.handles[id], x.runs[id].s.down;
    var k :| 0 <= k < h.taken && down[k] == [] && Flat(down[..k]) <= h.read;
    assert k == |down| - 1;
    TakeFlat(down, k);
    assert down[..k + 1] == down && h.taken == |down| && down[..h.taken] == down;
  }

  /** As the user sees it: a read into a nonempty buffer that returns no bytes means the peer's
      user has closed and there is nothing of its bytes left to read. */
  lemma ReadingNothingIsTheEnd(s: System, limits: (nat, nat), moves: seq<Move>, server: bool, id: u32, size: nat)
    requires Reachable(s, limits, moves) && id in Side(s, server).runs && id in Side(s, server).handles
    requires var (x, st) := (Side(s, server), Side(s, server).runs[id].s);
             size > 0 && PollRead(x.handles[id], st.down, id in x.sess.streams && st.tx, size).1 == Got([])
    ensures id in Side(s, !server).runs && Side(s, !server).runs[id].s.upClosed
    ensures Side(s, server).handles[id].read == WrittenBy(Side(s, !server), id)
  {
    hide Half;
    var m := Move(server, Read(id, size));
    assert (moves + [m])[..|moves + [m]| - 1] == moves;
    EndOfStreamIsTheEnd(Apply(s, m), limits, moves + [m], server, id);
  }

  // --- Flow-control credit -----------------------------------------------------------------

  /** Everything on its way from `x` to `y` on stream `id`, read off the actual state: bytes in
      `y`'s reader, on the wire and in `x`'s writer buffer, frames in `x`'s session queue and
      events in its head's queue. */
  function InFlight(x: Endpoint, y: Endpoint, id: u32): seq<Item>
    requires id in x.sess.streams && |y.got| <= |x.sent|
  {
    var bytes := Flat(y.sess.reader.segments) + x.sent[|y.got|..] + x.sess.buffer;
    Project(Codec.Read(Codec.StateOf(y.sess.reader.pending), bytes) + Tokens(x.sess.outQueue), id)
      + Items(x.sess.streams[id].outs)
  }

  lemma PipeTokens(x: Endpoint, y: Endpoint)
    requires EP.EInv(x) && EP.EInv(y) && y.got <= x.sent
    ensures Tokens(y.inputs)
            + Codec.Read(Codec.StateOf(y.sess.reader.pending),
                         Flat(y.sess.reader.segments) + x.sent[|y.got|..] + x.sess.buffer)
         == Tokens(x.started)
  {
    hide Codec.Scan, Codec.Read, Tokens, EncodeAll, Codec.WriteAll, EP.Mirror, EP.RunsInv, EP.Lockstep, EP.Bounded;
    StartedAccepted(x);
    Codec.ScanEncoded(x.started);
    var rest := Flat(y.sess.reader.segments) + x.sent[|y.got|..] + x.sess.buffer;
    assert EncodeAll(x.started) == EP.Used(y) + rest;
    Codec.ScanConcat(Codec.Idle([]), EP.Used(y), rest);
  }

  lemma EmittedSplits(h: History)
    ensures Emitted(h) == Items(h.popped) + Items(h.s.outs)
  {
    FlatMapConcat(ItemsOf, h.popped, h.s.outs);
  }

  lemma SentSplits(x: Endpoint, y: Endpoint, id: u32)
    requires EP.EInv(x) && EP.EInv(y) && y.got <= x.sent
    ensures var bytes := Flat(y.sess.reader.segments) + x.sent[|y.got|..] + x.sess.buffer;
            Sent(x, id) == Arrived(y, id)
              + Project(Codec.Read(Codec.StateOf(y.sess.reader.pending), bytes) + Tokens(x.sess.outQueue), id)
  {
    hide EP.EInv, Codec.Read, Codec.StateOf, Flat, FlatMap;
    PipeTokens(x, y);
    var bytes := Flat(y.sess.reader.segments) + x.sent[|y.got|..] + x.sess.buffer;
    var read, queue := Codec.Read(Codec.StateOf(y.sess.reader.pending), bytes), Tokens(x.sess.outQueue);
    FlatMapConcat(TokensOf, x.started, x.sess.outQueue);
    assert (Tokens(y.inputs) + read) + queue == Tokens(y.inputs) + (read + queue);
    FlatMapConcat(Of(id), Tokens(y.inputs), read + queue);
  }

  /** Nothing is lost or duplicated on the way: what has arrived followed by what is in flight is
      what the head has sent. */
  lemma FlightIsTheRest(x: Endpoint, y: Endpoint, server: bool, id: u32)
    requires Half(x, server) && Half(y, !server) && y.got <= x.sent && id in x.sess.streams
    ensures id in x.runs && Arrived(y, id) + InFlight(x, y, id) == Emitted(x.runs[id])
  {
    hide Half, EP.EInv, HandleInv, Tokens, Project, Items, Codec.Read, Codec.StateOf, Flat;
    EInvOf(x, server);
    EInvOf(y, !server);
    MirrorOf(x);
    StreamOf(x, id, server);
    var h := x.runs[id];
    SentSplits(x, y, id);
    FlatMapConcat(ItemsOf, h.popped, h.s.outs);
    assert Emitted(h) == Sent(x, id) + Items(h.s.outs) by { EmittedSplits(h); }
  }

  lemma SplitBytes(a: seq<Item>, b: seq<Item>)
    ensures |Bytes(a + b)| == |Bytes(a)| + |Bytes(b)|
  {
    FlatMapConcat(OctetOf, a, b);
  }

  lemma LiveStreamOf(x: Endpoint, id: u32, server: bool)
    requires Half(x, server) && id in x.sess.streams
    ensures id in x.runs && x.sess.streams[id] == x.runs[id].s
    ensures Received(x.runs[id]) == Arrived(x, id) && SP.CreditInv(x.runs[id])
  {
    hide EP.EInv, HandleInv, SP.CreditInv, SP.DataInv, SP.ShapeInv, SP.PairedInv, SP.CloseInv, SP.SealInv;
    MirrorOf(x);
    StreamOf(x, id, server);
  }

  /** Credit is conserved: while both heads of a stream exist, in each direction the sender's
      window, the data in flight, the receiver's unreturned count and the credit in flight back
      add up to twice the initial window. */
  lemma CreditIsConserved(s: System, limits: (nat, nat), moves: seq<Move>, server: bool, id: u32)
    requires Reachable(s, limits, moves)
    requires id in Side(s, server).sess.streams && id in Side(s, !server).sess.streams
    ensures var (x, y) := (Side(s, server), Side(s, !server));
            && |y.got| <= |x.sent| && |x.got| <= |y.sent|
            && x.sess.streams[id].send + |Bytes(InFlight(x, y, id))|
               + y.sess.streams[id].recv + Credit(InFlight(y, x, id))
            == 2 * INITIAL_WINDOW
  {
    hide Half, InFlight, Emitted, Received, Bytes, Credit, Arrived, SP.Inv;
    Halves(s, limits, moves, server);
    var x, y := Side(s, server), Side(s, !server);
    FlightIsTheRest(x, y, server, id);
    FlightIsTheRest(y, x, !server, id);
    LiveStreamOf(x, id, server);
    LiveStreamOf(y, id, !server);
    FlatMapConcat(OctetOf, Arrived(y, id), InFlight(x, y, id));
    CreditConcat(Arrived(x, id), InFlight(y, x, id));
    SplitBytes(Arrived(y, id), InFlight(x, y, id));
  }

  // --- No stall ----------------------------------------------------------------------------

  /** With nothing in flight either way the sender's gate is open, with room for 97 full chunks. */
  lemma NoStall(s: System, limits: (nat, nat), moves: seq<Move>, server: bool, id: u32)
    requires Reachable(s, limits, moves)
    requires id in Side(s, server).sess.streams && id in Side(s, !server).sess.streams
    requires var (x, y) := (Side(s, server), Side(s, !server));
             && |y.got| <= |x.sent| && |x.got| <= |y.sent| && InFlight(x, y, id) == [] && InFlight(y, x, id) == []
    ensures Side(s, server).sess.streams[id].send >= 397307 >= 97 * CHUNK_CAPACITY
  {
    hide Half, InFlight, Emitted, Received, SP.Inv;
    CreditIsConserved(s, limits, moves, server, id);
    Halves(s, limits, moves, server);
    LiveStreamOf(Side(s, !server), id, !server);
  }

  /** A session at rest on a stream: polling its head gives nothing. */
  predicate Idle(x: Endpoint, id: u32) {
    id in x.sess.streams && !PollNext(x.sess.streams[id]).1.Ready?
  }

  lemma {:induction false} FillProgress(s: Stream)
    requires s.send >= CHUNK_CAPACITY && (s.up != [] || s.upClosed)
    requires forall i | 0 <= i < |s.up| :: s.up[i] != []
    requires s.outs != [] || s.up != [] || s.local
    ensures Fill(s).outs != []
    decreases |s.up|
  {
    if s.up != [] {
      HG.FillGrows(TakeChunk(s));
    }
  }

  lemma IdleDrained(s: Stream)
    requires s.send >= CHUNK_CAPACITY && !PollNext(s).1.Ready? && (!s.local ==> s.up == [])
    requires forall i | 0 <= i < |s.up| :: s.up[i] != []
    ensures s.outs == [] && s.up == [] && (s.upClosed ==> !s.local)
  {
    hide Fill;
    if s.outs == [] && s.local && (s.up != [] || s.upClosed) {
      FillProgress(s);
    }
  }

  lemma RestDrained(x: Endpoint, id: u32)
    requires id in x.runs && Idle(x, id) && x.sess.streams[id] == x.runs[id].s && x.runs[id].s.send >= CHUNK_CAPACITY
    requires !x.runs[id].s.local ==> x.runs[id].s.up == []
    requires forall i | 0 <= i < |x.runs[id].s.up| :: x.runs[id].s.up[i] != []
    ensures var s := x.runs[id].s; s.outs == [] && s.up == [] && (s.upClosed ==> !s.local)
  {
    IdleDrained(x.runs[id].s);
  }

  lemma ClosedIsEmpty(x: Endpoint, y: Endpoint, server: bool, id: u32)
    requires Half(x, server) && Half(y, !server) && x.got <= y.sent && id in x.runs
    ensures var s := x.runs[id].s;
            (!s.local ==> s.up == []) && forall i | 0 <= i < |s.up| :: s.up[i] != []
  {
    hide Half, EP.EInv, HandleInv, Emitted, Received, SP.PairedInv, SP.CreditInv, SP.SealInv, SP.CloseInv;
    OutputOf(x, y, server, id);
    StreamOf(x, id, server);
  }

  /** All received: the peer's channel holds everything, and the marker if there was a FIN. */
  lemma Delivered(h: History, peer: History)
    requires SP.Inv(h) && SP.Inv(peer) && SP.GoodPeer(peer)
    requires Received(peer) == Emitted(h) && h.s.up == [] && (h.s.upClosed ==> !h.s.local)
    ensures !peer.s.userGone ==> Flat(peer.s.down) == h.written
    ensures !peer.s.userGone && h.s.upClosed ==> peer.s.down != [] && peer.s.down[|peer.s.down| - 1] == []
  {
    hide Bytes, Credit, SP.GoodPeer, SP.Paired, Conforming, Quiet, HasFin, HasRst, SP.NoAckAfterRst, Emitted, Received;
  }

  /** No deadlock: when nothing is in flight on a stream and the sender's head has nothing to
      emit, every byte its user ever wrote has been delivered to the peer's user (unless that
      user is gone), and if it closed, so has the end-of-stream marker. */
  lemma RestMeansDelivered(s: System, limits: (nat, nat), moves: seq<Move>, server: bool, id: u32)
    requires Reachable(s, limits, moves)
    requires id in Side(s, server).sess.streams && id in Side(s, !server).sess.streams
    requires var (x, y) := (Side(s, server), Side(s, !server));
             && |y.got| <= |x.sent| && |x.got| <= |y.sent| && InFlight(x, y, id) == [] && InFlight(y, x, id) == []
    requires Idle(Side(s, server), id)
    ensures id in Side(s, server).runs && id in Side(s, !server).runs
    ensures var (h, peer) := (Side(s, server).runs[id], Side(s, !server).runs[id].s);
            !peer.userGone ==>
              && Flat(peer.down) == h.written
              && (h.s.upClosed ==> peer.down != [] && peer.down[|peer.down| - 1] == [])
  {
    hide Half, InFlight, Emitted, Received, Bytes, SP.Inv, Fill, Flat, PollNext, Known, Arrived;
    NoStall(s, limits, moves, server, id);
    Halves(s, limits, moves, server);
    var x, y := Side(s, server), Side(s, !server);
    LiveStreamOf(x, id, server);
    LiveStreamOf(y, id, !server);
    FlightIsTheRest(x, y, server, id);
    StreamOf(x, id, server);
    StreamOf(y, id, !server);
    ClosedIsEmpty(x, y, server, id);
    assert x.runs[id].s.outs == [] && x.runs[id].s.up == [] && (x.runs[id].s.upClosed ==> !x.runs[id].s.local) by {
      RestDrained(x, id);
    }
    PeerIsGood(y, x, !server, id);
    Delivered(x.runs[id], y.runs[id]);
  }

  // --- Removal -----------------------------------------------------------------------------

  function SideOf(m: Move, server: bool): seq<Action> {
    if m.byServer == server then [m.action] else []
  }

  function ActionsOf(moves: seq<Move>, server: bool): seq<Action> {
    FlatMap((m: Move) => SideOf(m, server), moves)
  }

  /** Each side of the system is one endpoint with some peer, so what endpoints guarantee against any
      peer holds here too. */
  lemma {:induction false} SidesAreRuns(limits: (nat, nat), moves: seq<Move>, server: bool)
    requires Reach(Start(limits.0, limits.1), moves).Some?
    ensures EG.RunFrom(NewEndpoint(server, if server then limits.1 else limits.0), ActionsOf(moves, server))
         == Some(Side(Reach(Start(limits.0, limits.1), moves).value, server))
  {
    hide CanAct, Act;
    if moves == [] {
    } else {
      var front, m := moves[..|moves| - 1], moves[|moves| - 1];
      SidesAreRuns(limits, front, server);
      var s := Reach(Start(limits.0, limits.1), front).value;
      Halves(s, limits, front, m.byServer);
      NoClash(Side(s, m.byServer), Side(s, !m.byServer), m.byServer, m.action);
      var actions := ActionsOf(front, server);
      assert (actions + [m.action])[..|actions + [m.action]| - 1] == actions && actions + [] == actions;
    }
  }

  /** A head is removed only when all it had to say, its FIN included, has been queued for the
      wire, and only by a close of both halves. */
  lemma RemovedHeadsSaidAll(s: System, limits: (nat, nat), moves: seq<Move>, server: bool, id: u32)
    requires Reachable(s, limits, moves) && id in Side(s, server).runs && id !in Side(s, server).sess.streams
    ensures var (x, h) := (Side(s, server), Side(s, server).runs[id]);
            && Sent(x, id) == Emitted(h) && HasFin(Sent(x, id)) && !h.s.remote
  {
    hide Half, HandleInv, Items, Project, Tokens, HasFin, Bytes, EG.RunFrom, SP.Inv, EG.EndsWith;
    SidesAreRuns(limits, moves, server);
    var actions := ActionsOf(moves, server);
    EG.RemovedHeadsSaidAll(server, if server then limits.1 else limits.0, actions, id);
    Halves(s, limits, moves, server);
    StreamOf(Side(s, server), id, server);
    var h := Side(s, server).runs[id];
    assert h.popped + h.s.outs == h.popped;
  }

  // --- Ids ---------------------------------------------------------------------------------

  /** Opening never takes an id either side has ever used, so no entry is overwritten. */
  lemma OpensAreFresh(s: System, limits: (nat, nat), moves: seq<Move>, server: bool)
    requires Reachable(s, limits, moves) && Allowed(s, Move(server, Internal(OpenStream)))
    ensures Side(s, server).sess.nextId !in Side(s, server).runs
    ensures Side(s, server).sess.nextId !in Side(s, !server).runs
  {
    hide Half, Act;
    Halves(s, limits, moves, server);
    OpenHalf(Side(s, server), Side(s, !server), server);
  }

  /** Accepting never does either: a stream is created at most once on each side. */
  lemma AcceptsAreFresh(s: System, limits: (nat, nat), moves: seq<Move>, server: bool)
    requires Reachable(s, limits, moves) && Allowed(s, Move(server, Internal(NextFrame)))
    requires Accepts(Side(s, server).sess, Codec.NextFrame(Side(s, server).sess.reader).1.frame)
    ensures Codec.NextFrame(Side(s, server).sess.reader).1.frame.id !in Side(s, server).runs
  {
    hide Half, Act, Codec.NextFrame;
    Halves(s, limits, moves, server);
    var x, y := Side(s, server), Side(s, !server);
    ActHalf(x, y, server, Internal(NextFrame));
    EInvOf(Act(x, Internal(NextFrame)), server);
    OtherStream(x, y, server);
  }
}
