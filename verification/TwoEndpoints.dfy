/** Two sessions joined by two reliable byte pipes that cut, delay and buffer as they like. */
module TwoEndpoints {
  import opened Wire
  import opened StreamModel
  import opened SessionModel
  import SP = StreamProofs
  import EP = SessionProofs
  import Codec

  datatype System = System(client: Endpoint, server: Endpoint)

  datatype Move = Move(byServer: bool, action: Action)

  const LAST_ID: u32 := 0xFFFF_FFFF

  /** What the environment may do: the network delivers only what the peer sent, in order; ids
      do not wrap; nobody writes an empty buffer. */
  predicate Fair(x: Endpoint, y: Endpoint, a: Action) {
    && CanAct(x, a)
    && match a
       case Internal(Receive(c)) => |x.got| + |c| <= |y.sent| && y.sent[|x.got|..|x.got| + |c|] == c
       case Internal(OpenStream) => x.sess.nextId + 2 <= LAST_ID
       case Internal(User(_, Write(buf))) => buf != []
       case _ => true
  }

  predicate Allowed(s: System, m: Move) {
    if m.byServer then Fair(s.server, s.client, m.action) else Fair(s.client, s.server, m.action)
  }

  function Apply(s: System, m: Move): System
    requires Allowed(s, m)
  {
    if m.byServer then s.(server := Act(s.server, m.action)) else s.(client := Act(s.client, m.action))
  }

  function Start(clientLimit: nat, serverLimit: nat): System {
    System(NewEndpoint(false, clientLimit), NewEndpoint(true, serverLimit))
  }

  /** Where some moves lead, if each is allowed when it is made. */
  function Reach(s: System, moves: seq<Move>): Option<System> {
    if moves == [] then Some(s)
    else
      match Reach(s, moves[..|moves| - 1])
      case None => None
      case Some(t) => if Allowed(t, moves[|moves| - 1]) then Some(Apply(t, moves[|moves| - 1])) else None
  }

  // --- The invariant -----------------------------------------------------------------------

  predicate Own(id: u32, isServer: bool) {
    id % 2 == if isServer then 0 else 1
  }

  function Arrived(e: Endpoint, id: u32): seq<Item> {
    Project(Tokens(e.inputs), id)
  }

  /** The user's reading position over everything put into its channel. */
  ghost predicate HandleInv(h: Handle, down: seq<Chunk>) {
    && h.taken <= |down|
    && h.read + h.rest == Flat(down[..h.taken])
    && (h.eof ==> exists k | 0 <= k < h.taken :: down[k] == [] && Flat(down[..k]) <= h.read)
  }

  /** A stream an endpoint knows: its history is what the endpoint exchanged for that id. */
  ghost predicate Known(e: Endpoint, id: u32, isServer: bool)
    requires id in e.runs
  {
    var h := e.runs[id];
    && h.opener == Own(id, isServer) && !h.emptyWrites
    && Sent(e, id) == Items(h.popped)
    && Received(h) <= Arrived(e, id)
    && (id in e.sess.streams ==> Received(h) == Arrived(e, id))
    && (id !in e.sess.streams ==> h.s.outs == [] && !h.s.local && !h.s.remote)
    && id in e.handles && HandleInv(e.handles[id], h.s.down)
    && (if Own(id, isServer) then 0 < id < e.sess.nextId else Arrived(e, id) != [])
  }

  ghost predicate Unknown(e: Endpoint, id: u32, isServer: bool) {
    && Sent(e, id) == []
    && (if Own(id, isServer) then id == 0 || id >= e.sess.nextId else Arrived(e, id) == [])
  }

  ghost predicate StreamInv(e: Endpoint, id: u32, isServer: bool) {
    if id in e.runs then Known(e, id, isServer) else Unknown(e, id, isServer)
  }

  ghost predicate Half(e: Endpoint, isServer: bool) {
    && EP.EInv(e)
    && Own(e.sess.nextId, isServer) && e.sess.nextId > 0
    && (e.sess.reader.pending.Some? ==> Arrived(e, e.sess.reader.pending.value.id) != [])
    && forall id: u32 :: StreamInv(e, id, isServer)
  }

  ghost predicate SInv(s: System) {
    && Half(s.client, false) && Half(s.server, true)
    && s.client.got <= s.server.sent && s.server.got <= s.client.sent
  }

  // --- The pipe between them ---------------------------------------------------------------

  lemma TokensPrefix(a: seq<Frame>, b: seq<Frame>)
    ensures Tokens(a) <= Tokens(a + b)
  {
    FlatMapConcat(TokensOf, a, b);
  }

  lemma StartedAccepted(y: Endpoint)
    requires EP.Framed(y)
    ensures Codec.Accepted(y.started)
  {
    Codec.WriteAllConcat(None, y.started, y.sess.outQueue);
  }

  /** What has been parsed is a prefix of what was sent, however the bytes were cut. */
  lemma {:induction false} Linked(x: Endpoint, y: Endpoint)
    requires EP.EInv(x) && EP.EInv(y) && x.got <= y.sent
    ensures Tokens(x.inputs) <= Tokens(Queued(y))
  {
    hide Codec.Scan, Codec.Read, Tokens, EncodeAll, Codec.WriteAll, EP.Mirror, EP.RunsInv, EP.Lockstep, EP.Bounded;
    StartedAccepted(y);
    Codec.ScanEncoded(y.started);
    assert EP.Used(x) <= EncodeAll(y.started);
    Codec.ScanPrefix(Codec.Idle([]), EP.Used(x), EncodeAll(y.started));
    FlatMapConcat(TokensOf, y.started, y.sess.outQueue);
    TokensPrefix(y.started, y.sess.outQueue);
  }

  lemma ArrivedWasSent(x: Endpoint, y: Endpoint, id: u32)
    requires EP.EInv(x) && EP.EInv(y) && x.got <= y.sent
    ensures Arrived(x, id) <= Sent(y, id)
  {
    hide EP.EInv, Tokens, Project;
    Linked(x, y);
    ProjectPrefix(Tokens(x.inputs), Tokens(Queued(y)), id);
  }

  lemma ItemsPrefix(h: History)
    ensures Items(h.popped) <= Emitted(h)
  {
    FlatMapConcat(ItemsOf, h.popped, h.s.outs);
  }

  /** What one side has received on a stream is a prefix of what the other has sent on it. */
  lemma Peers(x: Endpoint, y: Endpoint, server: bool, id: u32)
    requires Half(x, server) && Half(y, !server) && x.got <= y.sent && id in x.runs
    requires Received(x.runs[id]) != []
    ensures id in y.runs && Received(x.runs[id]) <= Emitted(y.runs[id])
  {
    hide EP.EInv, Items, HandleInv, Tokens, Project, SP.Inv;
    ArrivedWasSent(x, y, id);
    assert StreamInv(x, id, server) && StreamInv(y, id, !server);
    ItemsPrefix(y.runs[id]);
  }

  // --- Each action keeps its half ----------------------------------------------------------

  /** Nothing about a stream changes when its own history does not. */
  lemma Untouched(e: Endpoint, e': Endpoint, id: u32, server: bool)
    requires StreamInv(e, id, server)
    requires (id in e.runs) == (id in e'.runs) && (id in e.runs ==> e.runs[id] == e'.runs[id])
    requires (id in e.sess.streams) == (id in e'.sess.streams)
    requires id in e.runs ==> id in e.handles && id in e'.handles && e.handles[id] == e'.handles[id]
    requires Sent(e, id) == Sent(e', id) && Arrived(e, id) == Arrived(e', id)
    requires e.sess.nextId == e'.sess.nextId
    ensures StreamInv(e', id, server)
  {
    hide HandleInv, Items, Project, Tokens;
  }

  lemma MirrorOf(e: Endpoint)
    requires EP.EInv(e)
    ensures EP.Mirror(e)
  {
  }

  lemma PollHalf(e: Endpoint, server: bool)
    requires Half(e, server) && CanAct(e, Internal(PollHead)) && EP.EInv(Act(e, Internal(PollHead)))
    ensures Half(Act(e, Internal(PollHead)), server)
  {
    hide EP.EInv, HandleInv, Project, Tokens, Items, PollNext;
    var e' := Act(e, Internal(PollHead));
    var polled := e.sess.draining.value;
    var h := e.runs[polled];
    SP.PollKeeps(e.sess.streams[polled]);
    SP.PollKeeps(h.s);
    assert h.s == e.sess.streams[polled] by { MirrorOf(e); }
    forall id: u32 ensures StreamInv(e', id, server) {
      assert StreamInv(e, id, server);
      if PollNext(h.s).1.Ready? {
        var ev := PollNext(h.s).1.event;
        ProjectSnoc(Queued(e), StreamFrame(polled, ev), id);
        assert Queued(e') == Queued(e) + [StreamFrame(polled, ev)];
        AppendEvent(h.popped, ev);
      } else {
        assert Queued(e') == Queued(e);
      }
      if id != polled {
        Untouched(e, e', id, server);
      }
    }
  }

  /** Moving bytes and frames along changes no stream. */
  lemma TransportHalf(e: Endpoint, l: Label, server: bool)
    requires Half(e, server) && CanAct(e, Internal(l)) && EP.EInv(Act(e, Internal(l)))
    requires OwnStep(l) && !l.NextFrame? && !l.PollHead? && !l.Remove?
    ensures Half(Act(e, Internal(l)), server)
  {
    hide EP.EInv, HandleInv, Project, Tokens, Items, PollNext, Encode, Codec.NextFrame;
    var e' := Act(e, Internal(l));
    assert Queued(e') == Queued(e);
    forall id: u32 ensures StreamInv(e', id, server) {
      assert StreamInv(e, id, server);
      Untouched(e, e', id, server);
    }
  }

  lemma RemoveHalf(e: Endpoint, removed: u32, server: bool)
    requires Half(e, server) && CanAct(e, Internal(Remove(removed))) && EP.EInv(Act(e, Internal(Remove(removed))))
    ensures Half(Act(e, Internal(Remove(removed))), server)
  {
    hide EP.EInv, HandleInv, Project, Tokens, Items, Fill;
    MirrorOf(e);
    var e' := Act(e, Internal(Remove(removed)));
    forall id: u32 ensures StreamInv(e', id, server) {
      assert StreamInv(e, id, server);
      if id != removed {
        Untouched(e, e', id, server);
      }
    }
  }

  lemma UserHalf(e: Endpoint, user: u32, op: Op, server: bool)
    requires Half(e, server) && CanAct(e, Internal(User(user, op))) && EP.EInv(Act(e, Internal(User(user, op))))
    requires op.Write? ==> op.buf != []
    ensures Half(Act(e, Internal(User(user, op))), server)
  {
    hide EP.EInv, HandleInv, Project, Tokens, Items;
    MirrorOf(e);
    EP.UserOuts(e.runs[user].s, op);
    var e' := Act(e, Internal(User(user, op)));
    forall id: u32 ensures StreamInv(e', id, server) {
      assert StreamInv(e, id, server);
      if id != user {
        Untouched(e, e', id, server);
      }
    }
  }

  // --- Reading -----------------------------------------------------------------------------

  lemma TakeFlat(down: seq<Chunk>, k: nat)
    requires k < |down|
    ensures Flat(down[..k + 1]) == Flat(down[..k]) + down[k]
  {
    assert down[..k + 1] == down[..k] + [down[k]];
    FlatSnoc(down[..k], down[k]);
  }

  lemma ReadKeeps(h: Handle, down: seq<Chunk>, tx: bool, n: nat)
    requires HandleInv(h, down)
    ensures HandleInv(PollRead(h, down, tx, n).0, down)
  {
    hide Flat;
    var h' := PollRead(h, down, tx, n).0;
    if h.rest == [] && h.taken < |down| {
      TakeFlat(down, h.taken);
      if down[h.taken] == [] {
        assert h'.eof && down[h.taken] == [] && Flat(down[..h.taken]) <= h'.read;
      }
    }
  }

  lemma HandleGrows(h: Handle, down: seq<Chunk>, more: seq<Chunk>)
    requires HandleInv(h, down)
    ensures HandleInv(h, down + more)
  {
    assert (down + more)[..h.taken] == down[..h.taken];
    if h.eof {
      var k :| 0 <= k < h.taken && down[k] == [] && Flat(down[..k]) <= h.read;
      assert (down + more)[k] == [] && (down + more)[..k] == down[..k];
    }
  }

  lemma ReadHalf(e: Endpoint, reader: u32, n: nat, server: bool)
    requires Half(e, server) && CanAct(e, Read(reader, n)) && EP.EInv(Act(e, Read(reader, n)))
    ensures Half(Act(e, Read(reader, n)), server)
  {
    hide EP.EInv, HandleInv, Project, Tokens, Items, PollRead;
    var e' := Act(e, Read(reader, n));
    var st := e.runs[reader].s;
    forall id: u32 ensures StreamInv(e', id, server) {
      assert StreamInv(e, id, server);
      if id != reader {
        Untouched(e, e', id, server);
      } else {
        ReadKeeps(e.handles[reader], st.down, reader in e.sess.streams && st.tx, n);
      }
    }
  }

  // --- Opening and accepting ---------------------------------------------------------------

  /** An id this side has not opened yet occurs nowhere. */
  lemma FreshId(x: Endpoint, y: Endpoint, server: bool, id: u32)
    requires Half(x, server) && Half(y, !server) && x.got <= y.sent && y.got <= x.sent
    requires Own(id, server) && id !in x.runs
    ensures id !in y.runs && Arrived(x, id) == [] && Sent(x, id) == []
  {
    hide EP.EInv, HandleInv, Project, Tokens, Items;
    ArrivedWasSent(x, y, id);
    ArrivedWasSent(y, x, id);
    assert StreamInv(x, id, server) && StreamInv(y, id, !server);
  }

  lemma OpenHalf(x: Endpoint, y: Endpoint, server: bool)
    requires Half(x, server) && Half(y, !server) && x.got <= y.sent && y.got <= x.sent
    requires Fair(x, y, Internal(OpenStream))
    ensures Half(Act(x, Internal(OpenStream)), server)
    ensures x.sess.nextId !in x.runs && x.sess.nextId !in y.runs
  {
    hide EP.EInv, Project, Tokens;
    var ours := x.sess.nextId;
    var x' := Act(x, Internal(OpenStream));
    assert StreamInv(x, ours, server);
    FreshId(x, y, server, ours);
    EP.ActInv(x, Internal(OpenStream));
    assert Queued(x') == Queued(x);
    forall id: u32 ensures StreamInv(x', id, server) {
      assert StreamInv(x, id, server);
    }
  }

  lemma FlagsGrow(s: Stream, f: Flags)
    ensures s.down <= HandleFlags(s, f).down
  {
  }

  /** An accepted input is recorded and only adds to what goes to the user. */
  lemma InputGrows(h: History, e: StreamEvent, handle: Handle)
    requires OnInput(h.s, e).Ok? && HandleInv(handle, h.s.down)
    ensures var h' := Step(h, Input(e));
            && Received(h') == Received(h) + ItemsOf(e) && h'.popped == h.popped
            && h'.opener == h.opener && h'.emptyWrites == h.emptyWrites
            && HandleInv(handle, h'.s.down)
  {
    hide HandleFlags, HandleInv, MarkReceived, Items;
    AppendEvent(h.received, e);
    var down := OnInput(h.s, e).value.down;
    if e.DataChunk? {
      SP.ChunkEffect(h.s, e.chunk);
    } else {
      FlagsGrow(h.s, e.flags);
    }
    assert down == h.s.down + down[|h.s.down|..];
    HandleGrows(handle, h.s.down, down[|h.s.down|..]);
  }

  lemma ArrivedSnoc(x: Endpoint, id: u32)
    requires CanAct(x, Internal(NextFrame))
    ensures var (x', f) := (Act(x, Internal(NextFrame)), Codec.NextFrame(x.sess.reader).1.frame);
            && Arrived(x', id) == Arrived(x, id) + (if f.StreamFrame? && f.id == id then ItemsOf(f.event) else [])
            && Sent(x', id) == Sent(x, id)
  {
    hide Codec.NextFrame, Tokens, Project, RunsAfterFrame, OnInputOrSame, Accepts, NewStream, ItemsOf;
    var (reader, next) := Codec.NextFrame(x.sess.reader);
    ProjectSnoc(x.inputs, next.frame, id);
    var x' := Act(x, Internal(NextFrame));
    if x'.sess.outQueue != x.sess.outQueue {
      var reply := SessionFrame(Ping(ACK, next.frame.control.code));
      assert Queued(x') == Queued(x) + [reply];
      ProjectSnoc(Queued(x), reply, id);
    }
  }

  lemma LockstepOf(e: Endpoint)
    requires EP.EInv(e)
    ensures EP.Lockstep(e.sess)
  {
  }

  /** A frame for a live stream goes into its history. */
  lemma LiveStream(x: Endpoint, server: bool)
    requires Half(x, server) && CanAct(x, Internal(NextFrame))
    requires var f := Codec.NextFrame(x.sess.reader).1.frame; f.StreamFrame? && f.id in x.sess.streams
    ensures StreamInv(Act(x, Internal(NextFrame)), Codec.NextFrame(x.sess.reader).1.frame.id, server)
  {
    hide Codec.NextFrame, Tokens, Project, Received, Items, HandleInv, OnInput, Step, ItemsOf, EP.EInv, EP.Lockstep;
    var f := Codec.NextFrame(x.sess.reader).1.frame;
    MirrorOf(x);
    LockstepOf(x);
    var h := x.runs[f.id];
    assert StreamInv(x, f.id, server);
    EP.DispatchAccepted(x.sess);
    ArrivedSnoc(x, f.id);
    InputGrows(h, f.event, x.handles[f.id]);
  }

  lemma ShapeOf(y: Endpoint, id: u32)
    requires EP.EInv(y) && id in y.runs
    ensures SP.Inv(y.runs[id]) && Conforming(Emitted(y.runs[id]), y.runs[id].opener)
  {
    hide EP.Mirror, EP.LinkOut, EP.LinkIn, EP.Framed, EP.Lockstep, EP.Bounded;
  }

  /** The first thing said about a stream by its opener is the opening window update. */
  lemma FirstIsSyn(x: Endpoint, y: Endpoint, server: bool, e: StreamEvent, id: u32, before: seq<Item>)
    requires Half(x, server) && Half(y, !server) && x.got <= y.sent && y.got <= x.sent
    requires before + ItemsOf(e) <= Sent(y, id) && ItemsOf(e) != []
    requires id !in x.runs ==> before == []
    ensures id in y.runs
    ensures e.DataChunk? || !e.flags.syn || (before == [] && !Own(id, server))
    ensures before == [] && !Own(id, server) ==> !e.DataChunk? && e.flags.syn
    ensures before == [] && Own(id, server) ==> id in x.runs
  {
    hide EP.EInv, HandleInv, Project, Tokens, Items, SP.Inv;
    assert StreamInv(y, id, !server) && StreamInv(x, id, server);
    var h := y.runs[id];
    ItemsPrefix(h);
    ShapeOf(y, id);
    var xs := Emitted(h);
    assert xs[|before|] == (before + ItemsOf(e))[|before|] == ItemsOf(e)[0];
    if before == [] && Own(id, server) && id !in x.runs {
      FreshId(x, y, server, id);
    }
  }

  lemma HeaderItems(e: StreamEvent)
    ensures !e.DataChunk? ==> ItemsOf(e) == [Head(e)]
  {
  }

  lemma EmptyHandle()
    ensures HandleInv(NEW_HANDLE, [])
  {
  }

  lemma BirthGrows(e: StreamEvent)
    requires !e.DataChunk?
    ensures var h := Step(Birth(false), Input(e));
            && Received(h) == ItemsOf(e) && h.popped == [] && !h.opener && !h.emptyWrites
            && HandleInv(NEW_HANDLE, h.s.down)
            && Items(h.popped) == []
  {
    hide HandleFlags, HandleInv, ItemsOf;
    EP.FreshAccepts(e);
    assert HandleInv(NEW_HANDLE, Birth(false).s.down) by { EmptyHandle(); }
    InputGrows(Birth(false), e, NEW_HANDLE);
  }

  /** A frame for an id with no live head: a first one creates it, any other is dropped. */
  lemma OtherStream(x: Endpoint, y: Endpoint, server: bool)
    requires Half(x, server) && Half(y, !server) && x.got <= y.sent && y.got <= x.sent
    requires CanAct(x, Internal(NextFrame))
    requires EP.EInv(Act(x, Internal(NextFrame)))
    requires var f := Codec.NextFrame(x.sess.reader).1.frame; f.StreamFrame? && f.id !in x.sess.streams
    ensures StreamInv(Act(x, Internal(NextFrame)), Codec.NextFrame(x.sess.reader).1.frame.id, server)
    ensures var f := Codec.NextFrame(x.sess.reader).1.frame; Accepts(x.sess, f) ==> f.id !in x.runs
  {
    hide Codec.NextFrame, Tokens, Project, Items, HandleInv, OnInput, Step, ItemsOf, EP.EInv, Received, OnInputOrSame;
    var f := Codec.NextFrame(x.sess.reader).1.frame;
    var id := f.id;
    var x' := Act(x, Internal(NextFrame));
    assert StreamInv(x, id, server);
    ArrivedSnoc(x, id);
    ArrivedWasSent(x', y, id);
    HeaderItems(f.event);
    if Own(id, server) && id !in x.runs {
      FreshId(x, y, server, id);
    }
    if ItemsOf(f.event) != [] {
      FirstIsSyn(x, y, server, f.event, id, Arrived(x, id));
    }
    if Accepts(x.sess, f) {
      EP.FreshAccepts(f.event);
      BirthGrows(f.event);
    } else {
      assert x'.runs == x.runs;
    }
  }

  lemma OtherIds(x: Endpoint, id: u32, server: bool)
    requires StreamInv(x, id, server) && CanAct(x, Internal(NextFrame))
    requires var f := Codec.NextFrame(x.sess.reader).1.frame; !(f.StreamFrame? && f.id == id)
    ensures StreamInv(Act(x, Internal(NextFrame)), id, server)
  {
    hide Codec.NextFrame, HandleInv, Items, Project, Tokens, ItemsOf, OnInputOrSame, NewStream, Step, Birth;
    ArrivedSnoc(x, id);
    Untouched(x, Act(x, Internal(NextFrame)), id, server);
  }

  /** A payload in progress belongs to a stream whose header has arrived. */
  lemma PendingAfter(x: Endpoint)
    requires CanAct(x, Internal(NextFrame))
    ensures var (x', f) := (Act(x, Internal(NextFrame)), Codec.NextFrame(x.sess.reader).1.frame);
            x'.sess.reader.pending.Some? ==>
              || (x.sess.reader.pending.Some? && x.sess.reader.pending.value.id == x'.sess.reader.pending.value.id)
              || (f.StreamFrame? && f.id == x'.sess.reader.pending.value.id && ItemsOf(f.event) != [])
  {
    hide DecodeHeader, Dispatch, RunsAfterFrame, Flat, Codec.DropBytes;
    var (reader, next) := Codec.NextFrame(x.sess.reader);
    EP.DispatchDraining(x.sess.(reader := reader), next.frame);
  }

  lemma NextFrameHalf(x: Endpoint, y: Endpoint, server: bool)
    requires Half(x, server) && Half(y, !server) && x.got <= y.sent && y.got <= x.sent
    requires CanAct(x, Internal(NextFrame))
    requires EP.EInv(Act(x, Internal(NextFrame)))
    ensures Half(Act(x, Internal(NextFrame)), server)
  {
    hide Tokens, Project, Items, HandleInv, OnInput, Step, ItemsOf, EP.EInv, Received, OnInputOrSame;
    hide StreamInv, DecodeHeader, Flat;
    var f := Codec.NextFrame(x.sess.reader).1.frame;
    var x' := Act(x, Internal(NextFrame));
    forall id: u32 ensures StreamInv(x', id, server) {
      assert StreamInv(x, id, server);
      ArrivedSnoc(x, id);
      if f.StreamFrame? && f.id == id {
        if id in x.sess.streams {
          LiveStream(x, server);
        } else {
          OtherStream(x, y, server);
        }
      } else {
        OtherIds(x, id, server);
      }
    }
    if x'.sess.reader.pending.Some? {
      ArrivedSnoc(x, x'.sess.reader.pending.value.id);
      PendingAfter(x);
    }
  }

  // --- Every move keeps the system's invariant ---------------------------------------------

  lemma EInvOf(x: Endpoint, server: bool)
    requires Half(x, server)
    ensures EP.EInv(x)
  {
  }

  lemma NoClash(x: Endpoint, y: Endpoint, server: bool, a: Action)
    requires Half(x, server) && Half(y, !server) && x.got <= y.sent && y.got <= x.sent && Fair(x, y, a)
    ensures EP.Harmless(x, a)
  {
    hide EP.EInv, HandleInv, Items, Project, Tokens;
    var id := x.sess.nextId;
    assert StreamInv(x, id, server);
    if id !in x.runs {
      FreshId(x, y, server, id);
    }
  }

  lemma PipesKept(x: Endpoint, y: Endpoint, a: Action)
    requires x.got <= y.sent && y.got <= x.sent && Fair(x, y, a)
    ensures Act(x, a).got <= y.sent && y.got <= Act(x, a).sent
  {
    hide Codec.NextFrame, PollNext, RunsAfterFrame, Dispatch, Step;
  }

  lemma ActHalf(x: Endpoint, y: Endpoint, server: bool, a: Action)
    requires Half(x, server) && Half(y, !server) && x.got <= y.sent && y.got <= x.sent && Fair(x, y, a)
    ensures Half(Act(x, a), server)
    ensures Act(x, a).got <= y.sent && y.got <= Act(x, a).sent
  {
    hide Half, Do, Enabled;
    NoClash(x, y, server, a);
    EP.ActInv(x, a) by { EInvOf(x, server); }
    PipesKept(x, y, a);
    match a
    case Read(id, n) => ReadHalf(x, id, n, server);
    case Internal(NextFrame) => NextFrameHalf(x, y, server);
    case Internal(OpenStream) => OpenHalf(x, y, server);
    case Internal(PollHead) => PollHalf(x, server);
    case Internal(Remove(id)) => RemoveHalf(x, id, server);
    case Internal(User(id, op)) => UserHalf(x, id, op, server);
    case Internal(l) => TransportHalf(x, l, server);
  }

  lemma StartInv(clientLimit: nat, serverLimit: nat)
    ensures SInv(Start(clientLimit, serverLimit))
  {
    EP.NewEndpointInv(false, clientLimit);
    EP.NewEndpointInv(true, serverLimit);
  }

  lemma MoveInv(s: System, m: Move)
    requires SInv(s) && Allowed(s, m)
    ensures SInv(Apply(s, m))
  {
    hide Half, Act, CanAct;
    if m.byServer {
      ActHalf(s.server, s.client, true, m.action);
    } else {
      ActHalf(s.client, s.server, false, m.action);
    }
  }

  lemma {:induction false} ReachInv(s: System, moves: seq<Move>)
    requires SInv(s) && Reach(s, moves).Some?
    ensures SInv(Reach(s, moves).value)
  {
    hide SInv, Allowed, Apply;
    if moves == [] {
    } else {
      ReachInv(s, moves[..|moves| - 1]);
      MoveInv(Reach(s, moves[..|moves| - 1]).value, moves[|moves| - 1]);
    }
  }
}
