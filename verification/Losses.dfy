/** What an opener that closes too early loses: who can avoid it, and that it is for good. */
module Losses {
  import opened Wire
  import opened StreamModel
  import opened SessionModel
  import opened TwoEndpoints
  import opened Guarantees
  import opened Liveness
  import EG = EndpointGuarantees
  import SP = StreamProofs
  import EP = SessionProofs
  import Codec

  // --- What never goes away ----------------------------------------------------------------

  predicate Heard(h: History) {
    h.received != []
  }

  /** A stream stays known; what has been heard, written or closed on it stays so, and a deaf head
      stays deaf. */
  predicate Persists(x: Endpoint, x': Endpoint, id: u32)
    requires id in x.runs
  {
    && id in x'.runs
    && (Heard(x.runs[id]) ==> Heard(x'.runs[id]))
    && (!Silent(x.runs[id]) ==> !Silent(x'.runs[id]))
    && (Deaf(x, id) ==> Deaf(x', id))
  }

  lemma InputKeepsClosed(s: Stream, e: StreamEvent)
    requires OnInput(s, e).Ok?
    ensures OnInput(s, e).value.upClosed == s.upClosed
  {
    hide HandleFlags, MarkReceived;
    if e.DataChunk? {
      SP.ChunkEffect(s, e.chunk);
    } else {
      SP.FlagsState(s, e.flags);
    }
  }

  lemma StepPersists(h: History, op: Op)
    ensures Heard(h) ==> Heard(Step(h, op))
    ensures !Silent(h) ==> !Silent(Step(h, op))
    ensures Step(h, op).opener == h.opener
  {
    hide OnInput, PollNext;
    SP.PollKeeps(h.s);
    if op.Input? && OnInput(h.s, op.event).Ok? {
      InputKeepsClosed(h.s, op.event);
    }
  }

  lemma MirrorIs(x: Endpoint, server: bool)
    requires Half(x, server)
    ensures EP.Mirror(x)
  {
    hide EP.EInv, StreamInv;
    EInvOf(x, server);
    MirrorOf(x);
  }

  /** Nothing brings a removed head back. */
  lemma GoneStays(x: Endpoint, y: Endpoint, server: bool, a: Action, id: u32)
    requires Half(x, server) && Half(y, !server) && x.got <= y.sent && y.got <= x.sent && Fair(x, y, a)
    requires id in x.runs && id !in x.sess.streams
    ensures id in Act(x, a).runs && Act(x, a).runs[id] == x.runs[id] && id !in Act(x, a).sess.streams
  {
    hide Half, Codec.NextFrame, PollNext, Step, Birth, Encode, OnInputOrSame, NewStream;
    MirrorIs(x, server);
    if a == Internal(NextFrame) {
      if Accepts(x.sess, Codec.NextFrame(x.sess.reader).1.frame) {
        AcceptedIsKnown(x, y, server);
      }
    } else if a == Internal(OpenStream) {
      OpenHalf(x, y, server);
    }
  }

  /** A living head's history goes on step by step. */
  lemma LivingSteps(x: Endpoint, a: Action, id: u32) returns (op: Option<Op>)
    requires EP.Mirror(x) && CanAct(x, a) && id in x.sess.streams
    requires a == Internal(OpenStream) ==> id != x.sess.nextId
    ensures id in Act(x, a).runs
    ensures Act(x, a).runs[id] == if op.Some? then Step(x.runs[id], op.value) else x.runs[id]
    ensures if a.Internal? && a.step.User? && a.step.id == id then op == Some(a.step.op)
            else op.None? || op.value.Input? || op.value.Poll?
  {
    hide Codec.NextFrame, PollNext, Step, Birth, Encode, Dispatch;
    match a
    case Read(_, _) => op := None;
    case Internal(NextFrame) =>
      var f := Codec.NextFrame(x.sess.reader).1.frame;
      op := if f.StreamFrame? && f.id == id then Some(Op.Input(f.event)) else None;
    case Internal(PollHead) => op := if x.sess.draining == Some(id) then Some(Op.Poll) else None;
    case Internal(User(user, userOp)) => op := if user == id then Some(userOp) else None;
    case _ => op := None;
  }

  lemma ActPersists(x: Endpoint, y: Endpoint, server: bool, a: Action, id: u32)
    requires Half(x, server) && Half(y, !server) && x.got <= y.sent && y.got <= x.sent && Fair(x, y, a)
    requires id in x.runs
    ensures Persists(x, Act(x, a), id)
  {
    hide Half, Act, CanAct, Silent, Heard, Received, Step;
    if id in x.sess.streams {
      MirrorIs(x, server);
      if a == Internal(OpenStream) {
        OpenHalf(x, y, server);
      }
      var op := LivingSteps(x, a, id);
      if op.Some? {
        StepPersists(x.runs[id], op.value);
      }
    } else {
      GoneStays(x, y, server, a, id);
    }
  }

  lemma MovePersists(s: System, m: Move, server: bool, id: u32)
    requires SInv(s) && Allowed(s, m) && id in Side(s, server).runs
    ensures Persists(Side(s, server), Side(Apply(s, m), server), id)
  {
    hide Half, Act, CanAct, Silent, Heard, Received;
    if m.byServer == server {
      ActPersists(Side(s, server), Side(s, !server), server, m.action, id);
    }
  }

  lemma {:induction false} ReachPersists(s: System, moves: seq<Move>, server: bool, id: u32)
    requires SInv(s) && Reach(s, moves).Some? && id in Side(s, server).runs
    ensures Persists(Side(s, server), Side(Reach(s, moves).value, server), id)
  {
    hide SInv, Act, CanAct, Silent, Heard, Received;
    if moves == [] {
    } else {
      var front, m := moves[..|moves| - 1], moves[|moves| - 1];
      ReachPersists(s, front, server, id);
      ReachInv(s, front);
      MovePersists(Reach(s, front).value, m, server, id);
    }
  }

  lemma ReachableInv(s: System, limits: (nat, nat), moves: seq<Move>)
    requires Reachable(s, limits, moves)
    ensures SInv(s)
  {
    hide SInv;
    StartInv(limits.0, limits.1);
    ReachInv(Start(limits.0, limits.1), moves);
  }

  // --- The user's part ---------------------------------------------------------------------

  /** Only a user who has closed can be deaf. */
  lemma DeafHadClosed(s: System, limits: (nat, nat), moves: seq<Move>, server: bool, id: u32)
    requires Reachable(s, limits, moves) && id in Side(s, server).runs && Deaf(Side(s, server), id)
    ensures Side(s, server).runs[id].s.upClosed
  {
    hide Half, HandleInv, Received, Emitted, Conforming, Quiet, HasFin, EG.RunFrom, SP.Inv, Bytes;
    Halves(s, limits, moves, server);
    OutputOf(Side(s, server), Side(s, !server), server, id);
    RemovedHeadsSaidAll(s, limits, moves, server, id);
  }

  /** At rest, a user who has kept its side open, or whose head has received anything, has been given
      everything. */
  lemma CarefulUsersLoseNothing(s: System, limits: (nat, nat), moves: seq<Move>, server: bool, id: u32)
    requires Reachable(s, limits, moves) && AtRest(s)
    requires id in Side(s, server).runs && id in Side(s, !server).runs
    requires var peer := Side(s, !server).runs[id]; !peer.s.userGone && (!peer.s.upClosed || Received(peer) != [])
    ensures AllThere(Side(s, server).runs[id], Side(s, !server).runs[id].s)
  {
    hide AtRest, AllThere, Silent, Received;
    RestIsDelivered(s, limits, moves, server, id);
    if Deaf(Side(s, !server), id) {
      DeafHadClosed(s, limits, moves, !server, id);
    }
  }

  lemma Joined(limits: (nat, nat), moves: seq<Move>, more: seq<Move>)
    requires Reach(Start(limits.0, limits.1), moves).Some?
    requires Reach(Reach(Start(limits.0, limits.1), moves).value, more).Some?
    ensures Reach(Start(limits.0, limits.1), moves + more) == Reach(Reach(Start(limits.0, limits.1), moves).value, more)
  {
    hide Reach;
    ReachAppend(Start(limits.0, limits.1), moves, more);
  }

  /** What a deaf head was sent is lost for good: in no state reachable from there has it been
      delivered. */
  lemma LossIsPermanent(s: System, limits: (nat, nat), moves: seq<Move>, more: seq<Move>, server: bool, id: u32)
    requires Reachable(s, limits, moves) && Reach(s, more).Some?
    requires id in Side(s, server).runs && id in Side(s, !server).runs
    requires Deaf(Side(s, !server), id) && !Silent(Side(s, server).runs[id])
    ensures var t := Reach(s, more).value;
            && id in Side(t, server).runs && id in Side(t, !server).runs && Deaf(Side(t, !server), id)
            && !AllThere(Side(t, server).runs[id], Side(t, !server).runs[id].s)
  {
    hide SInv, Deaf, Silent, Heard, AllThere, Busy, Reach;
    ReachableInv(s, limits, moves);
    ReachPersists(s, more, server, id);
    ReachPersists(s, more, !server, id);
    var t := Reach(s, more).value;
    Joined(limits, moves, more);
    ReachableWorks(t, limits, moves + more);
    BusySide(t, server);
    DeafIsEmpty(Side(t, server), Side(t, !server), server, id);
  }
}
