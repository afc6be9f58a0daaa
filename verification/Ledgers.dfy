/** End to end, by what calls return: the bytes that reads have returned are the first of those that
    writes have acknowledged. */
module Ledgers {
  import opened Wire
  import opened StreamModel
  import opened SessionModel
  import opened TwoEndpoints
  import opened Guarantees
  import opened Losses
  import SP = StreamProofs
  import EP = SessionProofs
  import Codec
  import Liveness

  // --- The two ledgers ---------------------------------------------------------------------

  /** The user of a stream closes it or drops its handle. */
  predicate Closing(a: Action, id: u32) {
    a == Internal(User(id, CloseUser)) || a == Internal(User(id, DropUser))
  }

  predicate HasClosed(moves: seq<Move>, server: bool, id: u32) {
    exists i | 0 <= i < |moves| :: moves[i].byServer == server && Closing(moves[i].action, id)
  }

  function FirstOf(buf: seq<byte>): seq<byte> {
    buf[..if |buf| < 4090 then |buf| else 4090]
  }

  /** What a write is acknowledged for: the first bytes of its buffer, as many as one call takes. */
  function Written(a: Action, id: u32, closed: bool): seq<byte> {
    if a.Internal? && a.step.User? && a.step.id == id && a.step.op.Write? && !closed then FirstOf(a.step.op.buf) else []
  }

  /** What a user's writes on a stream have been acknowledged for, until it closed. */
  function Acknowledged(moves: seq<Move>, server: bool, id: u32): seq<byte> {
    if moves == [] then []
    else
      var front, m := moves[..|moves| - 1], moves[|moves| - 1];
      Acknowledged(front, server, id)
        + if m.byServer == server then Written(m.action, id, HasClosed(front, server, id)) else []
  }

  /** What a read of stream `id` answers. */
  function Answer(x: Endpoint, id: u32, size: nat): ReadResult {
    if id in x.runs && id in x.handles then
      PollRead(x.handles[id], x.runs[id].s.down, id in x.sess.streams && x.runs[id].s.tx, size).1
    else NotYet
  }

  function BytesOf(r: ReadResult): seq<byte> {
    if r.Got? then r.bytes else []
  }

  function ReadOut(x: Endpoint, a: Action, id: u32): seq<byte> {
    if a.Read? && a.id == id then BytesOf(Answer(x, id, a.size)) else []
  }

  /** What a user's reads of a stream have returned. */
  function Returned(s: System, moves: seq<Move>, server: bool, id: u32): seq<byte> {
    if moves == [] then []
    else
      var front, m := moves[..|moves| - 1], moves[|moves| - 1];
      Returned(s, front, server, id)
        + match Reach(s, front)
          case Some(t) => if m.byServer == server then ReadOut(Side(t, server), m.action, id) else []
          case None => []
  }

  // --- Reading -----------------------------------------------------------------------------

  /** What a read answers, for every handle and channel: the end of what is in hand or of the next chunk
      that fits, nothing for an end marker; with nothing there, an error exactly if the sender is gone. */
  lemma ReadExactly(h: Handle, down: seq<Chunk>, tx: bool, size: nat)
    ensures var (h', r) := PollRead(h, down, tx, size);
            && h'.read == h.read + BytesOf(r)
            && (r.Broken? <==> h.rest == [] && h.taken >= |down| && !tx)
            && (r.NotYet? <==> h.rest == [] && h.taken >= |down| && tx)
            && (!r.Got? ==> h' == h)
            && (r.Got? ==>
                  var next := if h.rest != [] then h.rest else down[h.taken];
                  && r.bytes <= next && |r.bytes| == (if size < |next| then size else |next|)
                  && h'.rest == next[|r.bytes|..]
                  && h'.taken == h.taken + (if h.rest != [] then 0 else 1)
                  && (h'.eof <==> h.eof || next == []))
  {
  }

  /** While its head lives, a user that has not left never gets an error; once the head is gone it does,
      exactly when all that was delivered has been read. */
  lemma ReadsBreakExactly(s: System, limits: (nat, nat), moves: seq<Move>, server: bool, id: u32, size: nat)
    requires Reachable(s, limits, moves)
    requires id in Side(s, server).runs && !Side(s, server).runs[id].s.userGone
    ensures var x := Side(s, server);
            && id in x.handles
            && var (h, down) := (x.handles[id], x.runs[id].s.down);
               && h.taken <= |down|
               && (Answer(x, id, size) == Broken <==> id !in x.sess.streams && h.rest == [] && h.taken == |down|)
               && (Answer(x, id, size) == NotYet <==> id in x.sess.streams && h.rest == [] && h.taken == |down|)
  {
    hide Half, PollRead, SP.CreditInv, SP.DataInv, SP.ShapeInv, SP.PairedInv, SP.CloseInv, SP.SealInv, Items, Flat;
    Halves(s, limits, moves, server);
    var x := Side(s, server);
    StreamOf(x, id, server);
    ReadExactly(x.handles[id], x.runs[id].s.down, id in x.sess.streams && x.runs[id].s.tx, size);
  }

  // --- The ledgers are kept ----------------------------------------------------------------

  lemma StepBooks(h: History, op: Op)
    ensures Step(h, op).written == h.written + if op.Write? && !h.s.upClosed then FirstOf(op.buf) else []
    ensures Step(h, op).s.upClosed == (h.s.upClosed || op.CloseUser? || op.DropUser?)
  {
    hide OnInput, PollNext;
    SP.PollKeeps(h.s);
    if op.Input? && OnInput(h.s, op.event).Ok? {
      InputKeepsClosed(h.s, op.event);
    }
  }

  /** The books of one stream agree with its state. */
  predicate Booked(x: Endpoint, id: u32, acknowledged: seq<byte>, closed: bool, returned: seq<byte>) {
    if id in x.runs then
      && x.runs[id].written == acknowledged && x.runs[id].s.upClosed == closed
      && id in x.handles && x.handles[id].read == returned
    else acknowledged == [] && !closed && returned == []
  }

  lemma OpenIsFresh(x: Endpoint, y: Endpoint, server: bool, a: Action)
    requires Half(x, server) && Half(y, !server) && x.got <= y.sent && y.got <= x.sent && Fair(x, y, a)
    ensures a == Internal(OpenStream) ==> x.sess.nextId !in x.runs
    ensures a == Internal(NextFrame) && Accepts(x.sess, Codec.NextFrame(x.sess.reader).1.frame) ==>
              Codec.NextFrame(x.sess.reader).1.frame.id !in x.runs
  {
    hide Half, Codec.NextFrame;
    if a == Internal(OpenStream) {
      OpenHalf(x, y, server);
    } else if a == Internal(NextFrame) {
      if Accepts(x.sess, Codec.NextFrame(x.sess.reader).1.frame) {
        Liveness.AcceptedIsKnown(x, y, server);
      }
    }
  }

  /** Only reading moves a handle. */
  lemma HandleMoves(x: Endpoint, a: Action, id: u32)
    requires CanAct(x, a) && id in x.runs && id in x.handles
    requires a == Internal(OpenStream) ==> x.sess.nextId != id
    requires a == Internal(NextFrame) && Accepts(x.sess, Codec.NextFrame(x.sess.reader).1.frame) ==>
               Codec.NextFrame(x.sess.reader).1.frame.id != id
    ensures id in Act(x, a).handles && Act(x, a).handles[id].read == x.handles[id].read + ReadOut(x, a, id)
  {
    hide Codec.NextFrame, PollNext, Step, Birth, Encode, Dispatch, PollRead, RunsAfterFrame;
    if a.Read? && a.id == id {
      ReadExactly(x.handles[id], x.runs[id].s.down, id in x.sess.streams && x.runs[id].s.tx, a.size);
    }
  }

  lemma HistoryMoves(x: Endpoint, y: Endpoint, server: bool, a: Action, id: u32)
    requires Half(x, server) && Half(y, !server) && x.got <= y.sent && y.got <= x.sent && Fair(x, y, a)
    requires id in x.runs
    ensures id in Act(x, a).runs
    ensures Act(x, a).runs[id].written == x.runs[id].written + Written(a, id, x.runs[id].s.upClosed)
    ensures Act(x, a).runs[id].s.upClosed == (x.runs[id].s.upClosed || Closing(a, id))
  {
    hide Half, Act, Codec.NextFrame, PollNext, Step;
    if id in x.sess.streams {
      MirrorIs(x, server);
      OpenIsFresh(x, y, server, a);
      var op := LivingSteps(x, a, id);
      if op.Some? {
        StepBooks(x.runs[id], op.value);
      }
    } else {
      GoneStays(x, y, server, a, id);
    }
  }

  function EventOf(f: Frame): StreamEvent {
    if f.StreamFrame? then f.event else DataChunk([])
  }

  lemma NewBooks(x: Endpoint, a: Action, id: u32)
    requires EP.Mirror(x) && CanAct(x, a) && id !in x.runs
    ensures Booked(Act(x, a), id, [], false, [])
    ensures Written(a, id, false) == [] && !Closing(a, id) && ReadOut(x, a, id) == []
  {
    hide Codec.NextFrame, PollNext, Encode, Dispatch, PollRead, OnInput;
    StepBooks(Birth(false), Input(if a == Internal(NextFrame) then EventOf(Codec.NextFrame(x.sess.reader).1.frame)
                                  else DataChunk([])));
  }

  lemma ActBooks(x: Endpoint, y: Endpoint, server: bool, a: Action, id: u32,
                 acknowledged: seq<byte>, closed: bool, returned: seq<byte>)
    requires Half(x, server) && Half(y, !server) && x.got <= y.sent && y.got <= x.sent && Fair(x, y, a)
    requires Booked(x, id, acknowledged, closed, returned)
    ensures Booked(Act(x, a), id, acknowledged + Written(a, id, closed), closed || Closing(a, id),
                   returned + ReadOut(x, a, id))
  {
    hide Half, Act, CanAct, Written, ReadOut, Closing, Codec.NextFrame, EP.Mirror;
    if id in x.runs {
      HistoryMoves(x, y, server, a, id);
      OpenIsFresh(x, y, server, a);
      HandleMoves(x, a, id);
    } else {
      MirrorIs(x, server);
      NewBooks(x, a, id);
    }
  }

  lemma HasClosedMore(moves: seq<Move>, m: Move, server: bool, id: u32)
    ensures HasClosed(moves + [m], server, id) <==>
              HasClosed(moves, server, id) || (m.byServer == server && Closing(m.action, id))
  {
    var all := moves + [m];
    assert all[|moves|] == m && forall i | 0 <= i < |moves| :: all[i] == moves[i];
  }

  lemma NothingBooked(limits: (nat, nat), server: bool, id: u32)
    ensures Booked(Side(Start(limits.0, limits.1), server), id, [], HasClosed([], server, id), [])
  {
  }

  lemma {:induction false} RunBooks(limits: (nat, nat), moves: seq<Move>, server: bool, id: u32)
    requires Reach(Start(limits.0, limits.1), moves).Some?
    ensures var s := Start(limits.0, limits.1);
            Booked(Side(Reach(s, moves).value, server), id, Acknowledged(moves, server, id),
                   HasClosed(moves, server, id), Returned(s, moves, server, id))
  {
    hide Half, Act, CanAct, Booked, HasClosed, Answer, Written, ReadOut, Closing;
    var s := Start(limits.0, limits.1);
    if moves == [] {
      NothingBooked(limits, server, id);
    } else {
      var front, m := moves[..|moves| - 1], moves[|moves| - 1];
      assert moves == front + [m];
      RunBooks(limits, front, server, id);
      var t := Reach(s, front).value;
      HasClosedMore(front, m, server, id);
      Halves(t, limits, front, server);
      if m.byServer == server {
        ActBooks(Side(t, server), Side(t, !server), server, m.action, id, Acknowledged(front, server, id),
                 HasClosed(front, server, id), Returned(s, front, server, id));
      } else {
        assert Acknowledged(front, server, id) + [] == Acknowledged(front, server, id);
        assert Returned(s, front, server, id) + [] == Returned(s, front, server, id);
      }
    }
  }

  /** In every reachable state, for every stream, what the reads on one side have returned is a prefix of
      what the writes on the other side have been acknowledged for. */
  lemma {:induction false} ReturnedIsAcknowledged(s: System, limits: (nat, nat), moves: seq<Move>,
                                                  server: bool, id: u32)
    requires Reachable(s, limits, moves)
    ensures Returned(Start(limits.0, limits.1), moves, server, id) <= Acknowledged(moves, !server, id)
  {
    hide Reach, Returned, Acknowledged, HasClosed;
    RunBooks(limits, moves, server, id);
    RunBooks(limits, moves, !server, id);
    if id in Side(s, server).runs {
      UsersReadWhatWasWritten(s, limits, moves, server, id);
    }
  }
}
