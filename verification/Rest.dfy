/** How two sessions come to rest when they are polled, and what can keep them from it. */
module Rest {
  import opened Wire
  import opened StreamModel
  import opened SessionModel
  import opened TwoEndpoints
  import opened Guarantees
  import opened Liveness
  import EP = SessionProofs
  import HG = HeadGuarantees
  import Polls
  import SP = StreamProofs
  import Codec

  // --- Moves that get nothing done ---------------------------------------------------------

  /** A step of a session's own that gets nothing done although the byte stream is willing: it was
      offered nothing, and read from only when nothing was there. */
  predicate Clean(x: Endpoint, y: Endpoint, l: Label) {
    && OwnStep(l) && !Productive(x, l)
    && (l.Offer? ==> x.sess.buffer == [])
    && (l.StopReading? ==> |x.got| >= |y.sent|)
  }

  /** What the poll under way has found so far, getting nothing done. */
  predicate Checked(x: Endpoint, y: Endpoint) {
    match x.sess.phase
    case Resting => SideStill(x, y)
    case Sending(first, sent, asked) =>
      if first then !sent && (asked ==> x.sess.buffer == []) else SideStill(x, y)
    case Reading(sent) => !sent && x.sess.outQueue == []
    case Serving(sent, todo, ended) =>
      && !sent && x.sess.outQueue == [] && |x.got| >= |y.sent|
      && Codec.NextFrame(x.sess.reader).1.NeedMore?
      && forall id | id in x.sess.streams && id !in todo && id !in ended && x.sess.draining != Some(id) ::
           PollNext(x.sess.streams[id]).1.Blocked?
    case Flushing => false
  }

  lemma CleanChecks(x: Endpoint, y: Endpoint, l: Label)
    requires EP.Mirror(x) && EP.Phased(x.sess) && Checked(x, y) && Fair(x, y, Internal(l)) && Clean(x, y, l)
    ensures Checked(Act(x, Internal(l)), y)
  {
    hide Codec.NextFrame, PollNext, Step, Encode, RunsAfterFrame, Taken;
    if l.PollHead? {
      HG.StaysAsPolled(x.sess.streams[x.sess.draining.value]);
    }
  }

  lemma BeginChecks(x: Endpoint, y: Endpoint)
    requires CanAct(x, Internal(BeginPoll))
    ensures Checked(Act(x, Internal(BeginPoll)), y)
  {
  }

  /** A side that is still stays so under all moves but its users' writing, closing and opening, and
      keeps what is in its buffer. */
  lemma StillStays(x: Endpoint, y: Endpoint, a: Action)
    requires EP.Mirror(x) && SideStill(x, y) && Fair(x, y, a) && (a.Internal? ==> OwnStep(a.step))
    ensures SideStill(Act(x, a), y) && Act(x, a).sess.buffer == x.sess.buffer && Act(x, a).sent == x.sent
    ensures a.Internal? ==> !Productive(x, a.step)
  {
    hide Codec.NextFrame, PollNext, Step, Encode, RunsAfterFrame, Taken, SendReady;
    if a == Internal(PollHead) {
      HG.StaysAsPolled(x.sess.streams[x.sess.draining.value]);
    }
  }

  /** Nor does a clean step of the other side, or any reading, change what a side has found. */
  lemma PeerChecks(x: Endpoint, y: Endpoint, a: Action)
    requires Fair(y, x, a) && (a.Internal? ==> Clean(y, x, a.step))
    ensures Act(y, a).sent == y.sent
  {
    hide Codec.NextFrame, PollNext, Step, Encode, RunsAfterFrame, Taken, Dispatch;
  }

  lemma ReadChecks(x: Endpoint, y: Endpoint, a: Action)
    requires Fair(x, y, a) && a.Read?
    ensures Act(x, a).sess == x.sess && Act(x, a).got == x.got && Act(x, a).sent == x.sent
  {
  }

  // --- The same in the system --------------------------------------------------------------

  predicate CleanMove(s: System, m: Move) {
    m.action.Internal? ==> Clean(Side(s, m.byServer), Side(s, !m.byServer), m.action.step)
  }

  lemma PhasedOf(x: Endpoint, server: bool)
    requires Half(x, server)
    ensures EP.Mirror(x) && EP.Phased(x.sess)
  {
    hide StreamInv, EP.RunsInv, EP.LinkOut, EP.LinkIn, EP.Framed, EP.Lockstep, EP.Bounded;
  }

  lemma PhasedSide(s: System, server: bool)
    requires Working(s)
    ensures EP.Mirror(Side(s, server)) && EP.Phased(Side(s, server).sess)
  {
    hide Half, OnlyStreams, EP.Mirror, EP.Phased;
    BusySide(s, server);
    PhasedOf(Side(s, server), server);
  }

  /** What a side has found stays found while nothing gets done. */
  lemma CheckedStays(s: System, m: Move, server: bool)
    requires Working(s) && Allowed(s, m) && CleanMove(s, m) && Checked(Side(s, server), Side(s, !server))
    ensures Checked(Side(Apply(s, m), server), Side(Apply(s, m), !server))
  {
    hide Working, Act, CanAct, Clean, Codec.NextFrame, PollNext, EP.Mirror, EP.Phased;
    var x, y := Side(s, server), Side(s, !server);
    if m.byServer != server {
      PeerChecks(x, y, m.action);
    } else if m.action.Read? {
      ReadChecks(x, y, m.action);
    } else {
      PhasedSide(s, server);
      CleanChecks(x, y, m.action.step);
    }
  }

  lemma SentNoMore(x: Endpoint, y: Endpoint, y': Endpoint)
    requires SideStill(x, y) && y'.sent == y.sent
    ensures SideStill(x, y')
  {
    hide Codec.NextFrame, PollNext;
  }

  lemma StillSideStays(s: System, m: Move, server: bool)
    requires Working(s) && Allowed(s, m) && SessionMove(m) && Still(s)
    ensures SideStill(Side(Apply(s, m), server), Side(Apply(s, m), !server))
    ensures Side(Apply(s, m), server).sess.buffer == Side(s, server).sess.buffer
  {
    hide Working, Act, CanAct, SideStill, EP.Mirror, EP.Phased;
    PhasedSide(s, m.byServer);
    StillStays(Side(s, m.byServer), Side(s, !m.byServer), m.action);
    if m.byServer != server {
      SentNoMore(Side(s, server), Side(s, !server), Act(Side(s, !server), m.action));
    }
  }

  lemma StillUnproductive(s: System, m: Move)
    requires Working(s) && Still(s) && Allowed(s, m) && SessionMove(m)
    ensures !ProductiveMove(s, m)
  {
    hide Working, Act, CanAct, SideStill, Productive, EP.Mirror, EP.Phased;
    PhasedSide(s, m.byServer);
    StillStays(Side(s, m.byServer), Side(s, !m.byServer), m.action);
  }

  predicate SameBuffers(s: System, t: System) {
    s.client.sess.buffer == t.client.sess.buffer && s.server.sess.buffer == t.server.sess.buffer
  }

  lemma SameBuffersStill(s: System, t: System, u: System)
    requires SameBuffers(s, t) && SameBuffers(t, u)
    ensures SameBuffers(s, u)
  {
  }

  /** Two sessions that are still stay so, and what is in their buffers stays there. */
  lemma MoveStill(s: System, m: Move)
    requires Working(s) && Still(s) && Allowed(s, m) && SessionMove(m)
    ensures Still(Apply(s, m)) && SameBuffers(s, Apply(s, m)) && !ProductiveMove(s, m)
  {
    hide Working, Act, CanAct, SideStill, Allowed, Productive;
    StillSideStays(s, m, false);
    StillSideStays(s, m, true);
    PhasedSide(s, m.byServer);
    StillUnproductive(s, m);
  }

  // --- Fair runs ---------------------------------------------------------------------------

  /** An endless run of the two sessions, readers included, with no user doing anything else. */
  ghost predicate Endless(states: nat -> System, moves: nat -> Move) {
    && Working(states(0))
    && forall i: nat ::
         SessionMove(moves(i)) && Allowed(states(i), moves(i)) && states(i + 1) == Apply(states(i), moves(i))
  }

  ghost predicate BegunAfter(moves: nat -> Move, server: bool, i: nat) {
    exists j: nat :: i <= j && moves(j) == Move(server, Internal(BeginPoll))
  }

  /** The byte stream is offered something and takes nothing. */
  predicate OfferedInVain(s: System, m: Move, server: bool) {
    m == Move(server, Internal(Offer(0))) && Side(s, server).sess.buffer != []
  }

  predicate Takes(m: Move, server: bool) {
    m.byServer == server && m.action.Internal? && m.action.step.Offer? && m.action.step.n > 0
  }

  /** The byte stream gives nothing although something is there. */
  predicate ReadInVain(s: System, m: Move, server: bool) {
    m == Move(server, Internal(StopReading)) && |Side(s, server).got| < |Side(s, !server).sent|
  }

  predicate Gives(m: Move, server: bool) {
    m.byServer == server && m.action.Internal? && m.action.step.Receive?
  }

  ghost predicate TakesAfter(states: nat -> System, moves: nat -> Move, server: bool, i: nat) {
    || (forall j: nat | i <= j :: !OfferedInVain(states(j), moves(j), server))
    || exists j: nat :: i <= j && Takes(moves(j), server)
  }

  ghost predicate GivesAfter(states: nat -> System, moves: nat -> Move, server: bool, i: nat) {
    || (forall j: nat | i <= j :: !ReadInVain(states(j), moves(j), server))
    || exists j: nat :: i <= j && Gives(moves(j), server)
  }

  /** Each side is polled again and again, and its byte stream is fair: offered something again and
      again it takes some of it sometime, and read from again and again while something is there it
      gives some of it sometime. Nothing is said of bytes it is not offered. */
  ghost predicate FairRun(states: nat -> System, moves: nat -> Move) {
    forall server: bool, i: nat ::
      BegunAfter(moves, server, i) && TakesAfter(states, moves, server, i) && GivesAfter(states, moves, server, i)
  }

  lemma {:induction false} EndlessWorks(states: nat -> System, moves: nat -> Move, i: nat, j: nat)
    requires Endless(states, moves) && i <= j && Working(states(i))
    ensures Working(states(j)) && Weight(states(j)) <= Weight(states(i))
    decreases j
  {
    hide Working, Weight, Allowed, Apply, SessionMove, ProductiveMove;
    if i == j {
    } else {
      EndlessWorks(states, moves, i, j - 1);
      assert states((j - 1) + 1) == Apply(states(j - 1), moves(j - 1));
      MoveWorks(states(j - 1), moves(j - 1));
    }
  }

  /** From some point on nothing gets done. */
  lemma {:induction false} LastWork(states: nat -> System, moves: nat -> Move, i: nat) returns (n: nat)
    requires Endless(states, moves) && Working(states(i))
    ensures i <= n && Working(states(n)) && forall j: nat | n <= j :: !ProductiveMove(states(j), moves(j))
    decreases Weight(states(i))
  {
    hide Working, Weight, Allowed, Apply, SessionMove, ProductiveMove;
    if j: nat :| i <= j && ProductiveMove(states(j), moves(j)) {
      EndlessWorks(states, moves, i, j);
      assert states(j + 1) == Apply(states(j), moves(j));
      MoveWorks(states(j), moves(j));
      n := LastWork(states, moves, j + 1);
    } else {
      n := i;
    }
  }

  lemma TakesWorks(s: System, m: Move, server: bool)
    ensures Takes(m, server) || Gives(m, server) ==> ProductiveMove(s, m)
  {
  }

  lemma UnproductiveIsClean(s: System, m: Move)
    requires SessionMove(m) && !ProductiveMove(s, m)
    requires !OfferedInVain(s, m, m.byServer) && !ReadInVain(s, m, m.byServer)
    ensures CleanMove(s, m)
  {
  }

  /** From then on every move is clean: a fair byte stream is not asked in vain. */
  lemma CleanAfter(states: nat -> System, moves: nat -> Move, n: nat, j: nat)
    requires Endless(states, moves) && FairRun(states, moves) && n <= j
    requires forall k: nat | n <= k :: !ProductiveMove(states(k), moves(k))
    ensures CleanMove(states(j), moves(j))
  {
    hide Working, Allowed, Apply, Productive;
    var m := moves(j);
    assert TakesAfter(states, moves, m.byServer, n) && GivesAfter(states, moves, m.byServer, n);
    forall k: nat | n <= k ensures !Takes(moves(k), m.byServer) && !Gives(moves(k), m.byServer) {
      TakesWorks(states(k), moves(k), m.byServer);
    }
    assert SessionMove(m) && !ProductiveMove(states(j), m);
    UnproductiveIsClean(states(j), m);
  }

  /** What a side has found since a poll began stays found. */
  lemma {:induction false} CheckedAfter(states: nat -> System, moves: nat -> Move, server: bool, i: nat, j: nat)
    requires Endless(states, moves) && i <= j && Working(states(i))
    requires forall k: nat | i <= k :: CleanMove(states(k), moves(k))
    requires Checked(Side(states(i), server), Side(states(i), !server))
    ensures Checked(Side(states(j), server), Side(states(j), !server))
    decreases j
  {
    hide Working, Allowed, Apply, SessionMove, CleanMove, Checked;
    if i == j {
    } else {
      CheckedAfter(states, moves, server, i, j - 1);
      EndlessWorks(states, moves, i, j - 1);
      assert states((j - 1) + 1) == Apply(states(j - 1), moves(j - 1));
      CheckedStays(states(j - 1), moves(j - 1), server);
    }
  }

  lemma BegunChecks(s: System, server: bool)
    requires Allowed(s, Move(server, Internal(BeginPoll)))
    ensures var t := Apply(s, Move(server, Internal(BeginPoll)));
            Checked(Side(t, server), Side(t, !server)) && Side(s, server).sess.phase.Resting?
  {
    hide Codec.NextFrame, PollNext;
    BeginChecks(Side(s, server), Side(s, !server));
  }

  /** One whole poll that gets nothing done shows that the side is still. */
  lemma {:induction false} SideComesStill(states: nat -> System, moves: nat -> Move, server: bool, i: nat)
    returns (n: nat)
    requires Endless(states, moves) && FairRun(states, moves) && Working(states(i))
    requires forall k: nat | i <= k :: CleanMove(states(k), moves(k))
    ensures i <= n && SideStill(Side(states(n), server), Side(states(n), !server))
    ensures Working(states(n)) && Checked(Side(states(n), server), Side(states(n), !server))
  {
    hide Working, Allowed, Apply, SessionMove, CleanMove, SideStill;
    assert BegunAfter(moves, server, i);
    var j: nat :| i <= j && moves(j) == Move(server, Internal(BeginPoll));
    assert states(j + 1) == Apply(states(j), moves(j));
    BegunChecks(states(j), server);
    EndlessWorks(states, moves, i, j + 1);
    assert BegunAfter(moves, server, j + 1);
    n :| j + 1 <= n && moves(n) == Move(server, Internal(BeginPoll));
    CheckedAfter(states, moves, server, j + 1, n);
    EndlessWorks(states, moves, j + 1, n);
    BegunChecks(states(n), server);
  }

  lemma StillUnderClean(s: System, m: Move, server: bool)
    requires Working(s) && Allowed(s, m) && SessionMove(m) && CleanMove(s, m)
    requires SideStill(Side(s, server), Side(s, !server))
    ensures SideStill(Side(Apply(s, m), server), Side(Apply(s, m), !server))
  {
    hide Working, Act, CanAct, SideStill, Clean, EP.Mirror, EP.Phased;
    var x, y := Side(s, server), Side(s, !server);
    if m.byServer == server {
      PhasedSide(s, server);
      StillStays(x, y, m.action);
    } else {
      PeerChecks(x, y, m.action);
      SentNoMore(x, y, Act(y, m.action));
    }
  }

  lemma {:induction false} StillAfter(states: nat -> System, moves: nat -> Move, server: bool, i: nat, j: nat)
    requires Endless(states, moves) && i <= j && Working(states(i))
    requires forall k: nat | i <= k :: CleanMove(states(k), moves(k))
    requires SideStill(Side(states(i), server), Side(states(i), !server))
    ensures SideStill(Side(states(j), server), Side(states(j), !server)) && Working(states(j))
    decreases j
  {
    hide Working, Weight, Allowed, Apply, SessionMove, CleanMove, SideStill, ProductiveMove;
    if i == j {
    } else {
      StillAfter(states, moves, server, i, j - 1);
      EndlessWorks(states, moves, i, j);
      assert states((j - 1) + 1) == Apply(states(j - 1), moves(j - 1));
      StillUnderClean(states(j - 1), moves(j - 1), server);
    }
  }

  lemma SameAsItself(s: System)
    ensures SameBuffers(s, s)
  {
  }

  lemma {:induction false} StillForEver(states: nat -> System, moves: nat -> Move, i: nat, j: nat)
    requires Endless(states, moves) && i <= j && Working(states(i)) && Still(states(i))
    ensures Still(states(j)) && SameBuffers(states(i), states(j))
    decreases j
  {
    hide Working, Weight, Allowed, Apply, SessionMove, Still, SameBuffers, ProductiveMove;
    if i == j {
      SameAsItself(states(i));
    } else {
      StillForEver(states, moves, i, j - 1);
      EndlessWorks(states, moves, i, j - 1);
      assert states((j - 1) + 1) == Apply(states(j - 1), moves(j - 1));
      MoveStill(states(j - 1), moves(j - 1));
      SameBuffersStill(states(i), states(j - 1), states(j));
    }
  }

  /** Every fair run comes to a state that is still, stays so, and leaves in the buffers what is
      there then. */
  lemma {:induction false} FairRunsComeStill(states: nat -> System, moves: nat -> Move) returns (n: nat)
    requires Endless(states, moves) && FairRun(states, moves)
    ensures forall m: nat | n <= m :: Still(states(m)) && SameBuffers(states(n), states(m))
  {
    hide Working, Allowed, Apply, SessionMove, CleanMove, SideStill, FairRun, ProductiveMove, Checked;
    var last := LastWork(states, moves, 0);
    forall k: nat | last <= k ensures CleanMove(states(k), moves(k)) {
      CleanAfter(states, moves, last, k);
    }
    var client := SideComesStill(states, moves, false, last);
    n := SideComesStill(states, moves, true, client);
    StillAfter(states, moves, false, client, n);
    assert Still(states(n));
    forall m: nat | n <= m ensures Still(states(m)) && SameBuffers(states(n), states(m)) {
      StillForEver(states, moves, n, m);
    }
  }

  // --- What a buffer keeps -----------------------------------------------------------------

  /** All one side has queued has arrived at the other. */
  predicate Complete(x: Endpoint, y: Endpoint) {
    Tokens(y.inputs) == Tokens(Queued(x))
  }

  lemma LastByteYields(s: Codec.Scanner, b: byte)
    requires Codec.Feed(s, b) == Codec.Idle([])
    ensures Codec.Yield(s, b) != []
  {
    hide DecodeHeader;
  }

  /** Bytes that end on a frame boundary say something. */
  lemma BytesYield(s: Codec.Scanner, bs: seq<byte>)
    requires bs != [] && Codec.Scan(s, bs) == Codec.Idle([])
    ensures Codec.Read(s, bs) != []
  {
    hide DecodeHeader, Codec.Feed, Codec.Yield;
    LastByteYields(Codec.Scan(s, bs[..|bs| - 1]), bs[|bs| - 1]);
  }

  lemma NothingOwed(x: Endpoint)
    requires EP.Framed(x) && EP.Mirror(x) && x.sess.outQueue == []
    requires forall id | id in x.sess.streams :: PollNext(x.sess.streams[id]).1.Blocked?
    ensures Queued(x) == x.started && Codec.WriteAll(None, x.started) == Ok(None)
  {
    hide PollNext, Codec.WriteAll;
    if x.sess.draining.Some? {
      BlockedIsEmpty(x.sess.streams[x.sess.draining.value]);
    }
    assert x.started + [] == x.started;
  }

  /** Where the other side's parser would be after all that has been encoded. */
  lemma EndsIdle(x: Endpoint, y: Endpoint)
    requires EP.EInv(x) && EP.EInv(y) && y.got == x.sent && Codec.WriteAll(None, x.started) == Ok(None)
    ensures Codec.Scan(Codec.StateOf(y.sess.reader.pending), Flat(y.sess.reader.segments) + x.sess.buffer)
         == Codec.Idle([])
    ensures Tokens(y.inputs)
            + Codec.Read(Codec.StateOf(y.sess.reader.pending), Flat(y.sess.reader.segments) + x.sess.buffer)
         == Tokens(x.started)
  {
    hide Codec.Scan, Codec.Read, Tokens, EncodeAll, Codec.WriteAll, EP.Mirror, EP.RunsInv, EP.Lockstep, EP.Bounded;
    hide EP.Phased, EP.Framed;
    Codec.ScanEncoded(x.started);
    var rest := Flat(y.sess.reader.segments) + x.sess.buffer;
    assert EncodeAll(x.started) == EP.Used(y) + rest;
    Codec.ScanConcat(Codec.Idle([]), EP.Used(y), rest);
  }

  lemma FramedOf(x: Endpoint)
    requires EP.EInv(x)
    ensures EP.Framed(x) && EP.Mirror(x)
  {
    hide EP.Framed, EP.Mirror, EP.RunsInv, EP.LinkOut, EP.LinkIn, EP.Lockstep, EP.Bounded, EP.Phased;
  }

  /** When both sides are still, everything has arrived exactly if nothing is left in the buffer. */
  lemma CompleteExactly(x: Endpoint, y: Endpoint, server: bool)
    requires Busy(x, y, server) && SideStill(x, y) && SideStill(y, x)
    ensures Complete(x, y) <==> x.sess.buffer == []
  {
    hide Half, OnlyStreams, Codec.NextFrame, PollNext, Codec.Scan, Codec.Read, Tokens, Flat, Codec.WriteAll, EP.EInv;
    EInvOf(x, server);
    EInvOf(y, !server);
    FramedOf(x);
    NothingOwed(x);
    EndsIdle(x, y);
    Codec.NeedMoreScans(y.sess.reader);
    var state, segments := Codec.StateOf(y.sess.reader.pending), Flat(y.sess.reader.segments);
    Codec.ScanConcat(state, segments, x.sess.buffer);
    if x.sess.buffer == [] {
      assert segments + [] == segments;
    } else {
      BytesYield(Codec.Scan(state, segments), x.sess.buffer);
    }
  }

  lemma StillSystem(s: System)
    requires Working(s) && Still(s)
    ensures AtRest(s) <==> !Stranded(s)
    ensures Complete(s.client, s.server) && Complete(s.server, s.client) <==> !Stranded(s)
  {
    hide Busy, SideStill, Complete;
    BusySide(s, false);
    BusySide(s, true);
    CompleteExactly(s.client, s.server, false);
    CompleteExactly(s.server, s.client, true);
  }

  function First(moves: nat -> Move, n: nat): seq<Move> {
    if n == 0 then [] else First(moves, n - 1) + [moves(n - 1)]
  }

  lemma {:induction false} EndlessReaches(states: nat -> System, moves: nat -> Move, past: seq<Move>,
                                          limits: (nat, nat), n: nat)
    requires Endless(states, moves) && Reachable(states(0), limits, past)
    ensures Reachable(states(n), limits, past + First(moves, n))
  {
    hide Working, Allowed, Apply, SessionMove;
    if n == 0 {
      assert past + [] == past;
    } else {
      EndlessReaches(states, moves, past, limits, n - 1);
      assert states((n - 1) + 1) == Apply(states(n - 1), moves(n - 1));
      ReachConcat(Start(limits.0, limits.1), past + First(moves, n - 1), moves(n - 1));
      assert past + First(moves, n) == (past + First(moves, n - 1)) + [moves(n - 1)];
    }
  }

  /** Every stream has settled, in both directions. */
  predicate AllSettled(s: System) {
    forall server, id | id in Side(s, server).runs ::
      id in Side(s, !server).runs && Settles(Side(s, server), Side(s, !server), id)
  }

  lemma RestSettles(s: System, limits: (nat, nat), moves: seq<Move>)
    requires Reachable(s, limits, moves) && AtRest(s)
    ensures AllSettled(s)
  {
    hide AtRest, Settles, Reachable;
    forall server, id | id in Side(s, server).runs
      ensures id in Side(s, !server).runs && Settles(Side(s, server), Side(s, !server), id)
    {
      RestIsDelivered(s, limits, moves, server, id);
    }
  }

  /** How a state ends in which bytes are stranded, or are not. */
  predicate Ends(s: System, stranded: bool) {
    && Still(s) && (AtRest(s) <==> !stranded)
    && (Complete(s.client, s.server) && Complete(s.server, s.client) <==> !stranded)
    && (!stranded ==> AllSettled(s))
  }

  lemma StillEnds(s: System, limits: (nat, nat), moves: seq<Move>)
    requires Reachable(s, limits, moves) && Still(s)
    ensures Ends(s, Stranded(s))
  {
    hide Still, AtRest, Complete, Stranded, AllSettled, Reachable, Working;
    ReachableWorks(s, limits, moves);
    StillSystem(s);
    if !Stranded(s) {
      RestSettles(s, limits, moves);
    }
  }

  /** How every fair run ends. From some point on both sides are still. If bytes are left in a
      buffer then, they stay there for ever and do not arrive; if none are, everything has arrived
      and every stream has settled. */
  lemma {:induction false} FairRunsEnd(states: nat -> System, moves: nat -> Move, past: seq<Move>,
                                       limits: (nat, nat)) returns (n: nat)
    requires Endless(states, moves) && FairRun(states, moves) && Reachable(states(0), limits, past)
    ensures forall m: nat | n <= m ::
              Ends(states(m), Stranded(states(n))) && SameBuffers(states(n), states(m))
  {
    hide Endless, FairRun, Ends, Reachable, Still;
    n := FairRunsComeStill(states, moves);
    forall m: nat | n <= m ensures Ends(states(m), Stranded(states(n))) && SameBuffers(states(n), states(m)) {
      EndlessReaches(states, moves, past, limits, m);
      assert Still(states(m)) && SameBuffers(states(n), states(m));
      StillEnds(states(m), limits, past + First(moves, m));
    }
  }

  // --- How to be sure that no bytes are stranded -------------------------------------------

  /** The flush that ends a poll hands over all there is. */
  predicate Flushed(x: Endpoint, a: Action) {
    a.Internal? && a.step.Offer? && x.sess.phase.Flushing? ==> a.step.n == |x.sess.buffer|
  }

  predicate HasSent(p: Phase) {
    match p
    case Sending(_, sent, _) => sent
    case Reading(sent) => sent
    case Serving(sent, _, _) => sent
    case Flushing => true
    case Resting => false
  }

  /** If there is anything in the buffer the byte stream will be asked again: by the poll under way,
      or because something is queued, or because a head is about to queue something. */
  predicate Dry(s: Session) {
    s.buffer == [] || s.outQueue != [] || HasSent(s.phase) || exists id | id in s.streams :: s.streams[id].outs != []
  }

  lemma InputSays(s: Stream, e: StreamEvent)
    ensures s.outs <= OnInputOrSame(s, e).outs
  {
    hide OnInput;
    if OnInput(s, e).Ok? {
      HG.InputGrows(s, e);
    }
  }

  lemma TakenDry(s: Session, f: Frame)
    requires Dry(s)
    ensures Dry(Taken(s, f))
  {
    hide OnInputOrSame;
    EP.DispatchDraining(s, f);
    if f.StreamFrame? {
      if f.id in s.streams {
        InputSays(s.streams[f.id], f.event);
        if id :| id in s.streams && s.streams[id].outs != [] {
          assert id in Taken(s, f).streams;
        }
      } else if Accepts(s, f) {
        InputSays(NewStream(false), f.event);
        assert f.id in Taken(s, f).streams;
      }
    }
  }

  lemma PolledDry(s: Session)
    requires Dry(s) && Enabled(s, PollHead)
    ensures Dry(Do(s, PollHead))
  {
    hide Fill;
    var id := s.draining.value;
    if !PollNext(s.streams[id]).1.Ready? {
      if k :| k in s.streams && s.streams[k].outs != [] {
        assert k != id && k in Do(s, PollHead).streams;
      }
    }
  }

  lemma OthersDry(s: Session, l: Label)
    requires Dry(s) && Enabled(s, l) && (l.OpenStream? || l.Remove? || l.User?)
    ensures Dry(Do(s, l))
  {
    hide Fill;
    if l.OpenStream? {
      assert s.nextId in Do(s, l).streams;
    } else if id :| id in s.streams && s.streams[id].outs != [] {
      if l.User? {
        EP.UserOuts(s.streams[l.id], l.op);
      }
      assert id in Do(s, l).streams;
    }
  }

  /** With flushes that hand over everything, no move strands any bytes. */
  lemma ActDry(x: Endpoint, a: Action)
    requires Dry(x.sess) && CanAct(x, a) && Flushed(x, a)
    ensures Dry(Act(x, a).sess)
  {
    hide Codec.NextFrame, PollNext, Step, Encode, RunsAfterFrame, Taken, SendReady, UserStep;
    if a.Internal? {
      match a.step
      case NextFrame =>
        var (reader, next) := Codec.NextFrame(x.sess.reader);
        TakenDry(x.sess.(reader := reader), next.frame);
      case PollHead => PolledDry(x.sess);
      case OpenStream => OthersDry(x.sess, a.step);
      case Remove(_) => OthersDry(x.sess, a.step);
      case User(_, _) => OthersDry(x.sess, a.step);
      case _ =>
    }
  }

  /** A dry side that is still has nothing in its buffer. */
  lemma DryIsEmpty(x: Endpoint, y: Endpoint)
    requires Dry(x.sess) && SideStill(x, y)
    ensures x.sess.buffer == []
  {
    hide PollNext, Codec.NextFrame;
    if id :| id in x.sess.streams && x.sess.streams[id].outs != [] {
      BlockedIsEmpty(x.sess.streams[id]);
    }
  }

  predicate AllDry(s: System) {
    Dry(s.client.sess) && Dry(s.server.sess)
  }

  predicate FlushedMove(s: System, m: Move) {
    Flushed(Side(s, m.byServer), m.action)
  }

  lemma MoveDry(s: System, m: Move)
    requires AllDry(s) && Allowed(s, m) && FlushedMove(s, m)
    ensures AllDry(Apply(s, m))
  {
    hide Dry, Act, CanAct, Flushed;
    ActDry(Side(s, m.byServer), m.action);
  }

  lemma {:induction false} EndlessDry(states: nat -> System, moves: nat -> Move, n: nat)
    requires Endless(states, moves) && AllDry(states(0))
    requires forall i: nat :: FlushedMove(states(i), moves(i))
    ensures AllDry(states(n))
  {
    hide AllDry, Working, Allowed, Apply, SessionMove, FlushedMove;
    if n == 0 {
    } else {
      EndlessDry(states, moves, n - 1);
      assert states((n - 1) + 1) == Apply(states(n - 1), moves(n - 1));
      MoveDry(states(n - 1), moves(n - 1));
    }
  }

  lemma DryIsFree(s: System)
    requires AllDry(s) && Still(s)
    ensures !Stranded(s)
  {
    hide Dry, SideStill;
    DryIsEmpty(s.client, s.server);
    DryIsEmpty(s.server, s.client);
  }

  /** What was written will be delivered, in every fair run in which the flush that ends a poll is
      never refused anything. */
  lemma {:induction false} FlushedRunsDeliver(states: nat -> System, moves: nat -> Move, past: seq<Move>,
                                              limits: (nat, nat)) returns (n: nat)
    requires Endless(states, moves) && FairRun(states, moves) && Reachable(states(0), limits, past)
    requires AllDry(states(0)) && forall i: nat :: FlushedMove(states(i), moves(i))
    ensures forall m: nat | n <= m :: AtRest(states(m)) && AllSettled(states(m))
  {
    hide Endless, FairRun, Reachable, AllDry, FlushedMove, Still, AtRest, AllSettled, Stranded, Complete;
    n := FairRunsEnd(states, moves, past, limits);
    EndlessDry(states, moves, n);
    assert Ends(states(n), Stranded(states(n)));
    DryIsFree(states(n));
  }

  // --- Polls end, and lead to rest ---------------------------------------------------------

  /** What the poll under way still has to do at most, if it gets nothing done. */
  function Rank(s: Session): nat {
    match s.phase
    case Resting => 0
    case Flushing => 1
    case Sending(first, _, asked) => (if first then 6 + 3 * |s.streams| else 2) + if asked then 0 else 1
    case Reading(_) => 5 + 3 * |s.streams|
    case Serving(_, todo, ended) => 4 + 3 * |todo| + |ended| + if s.draining.Some? then 2 else 0
  }

  lemma DrainRank(s: Session, l: Label)
    requires EP.Phased(s) && Enabled(s, l) && (l.BeginDrain? || l.PollHead?)
    requires l.PollHead? ==> !PollNext(s.streams[s.draining.value]).1.Ready?
    ensures Rank(Do(s, l)) < Rank(s)
  {
    hide Codec.NextFrame, PollNext, SendReady;
    if l.BeginDrain? {
      assert |s.phase.todo - {l.id}| == |s.phase.todo| - 1;
    } else {
      var id := s.draining.value;
      assert id !in s.phase.ended;
      assert |s.phase.ended + {id}| == |s.phase.ended| + 1;
    }
  }

  lemma RankDown(s: Session, l: Label)
    requires EP.Phased(s) && Enabled(s, l) && OwnStep(l) && !l.BeginPoll?
    requires !l.StartSend? && !l.Receive? && !l.NextFrame? && !l.Remove?
    requires l.PollHead? ==> !PollNext(s.streams[s.draining.value]).1.Ready?
    ensures Rank(Do(s, l)) < Rank(s)
  {
    hide Codec.NextFrame, PollNext, SendReady, EP.Phased;
    if l.BeginDrain? || l.PollHead? {
      DrainRank(s, l);
    } else if l.StopReading? {
      assert |s.streams.Keys| == |s.streams|;
    }
  }

  lemma ActIsDone(x: Endpoint, l: Label)
    requires EP.Mirror(x) && CanAct(x, Internal(l))
    ensures Enabled(x.sess, l) && Act(x, Internal(l)).sess == Do(x.sess, l)
  {
    hide Do, Step, RunsAfterFrame, Birth, Codec.NextFrame, PollNext, Enabled;
  }

  lemma CleanRank(x: Endpoint, y: Endpoint, l: Label)
    requires EP.Mirror(x) && EP.Phased(x.sess) && Fair(x, y, Internal(l)) && Clean(x, y, l) && !l.BeginPoll?
    ensures Rank(Act(x, Internal(l)).sess) < Rank(x.sess)
  {
    hide PollNext, Codec.NextFrame, Rank, Do, EP.Phased, SendReady, Offers, Leaves;
    ActIsDone(x, l);
    RankDown(x.sess, l);
  }

  /** The move a poll makes next when the byte stream is willing. */
  ghost function Willing(x: Endpoint, y: Endpoint): Label {
    match x.sess.phase
    case Resting => BeginPoll
    case Flushing => Offer(|x.sess.buffer|)
    case Sending(_, _, asked) =>
      if asked then (if SendReady(x.sess) then StartSend else Leave)
      else if x.sess.outQueue != [] then Offer(|x.sess.buffer|) else Leave
    case Reading(_) =>
      if !Codec.NextFrame(x.sess.reader).1.NeedMore? then NextFrame
      else if |x.got| < |y.sent| then Receive(y.sent[|x.got|..|x.got| + 1])
      else StopReading
    case Serving(_, todo, ended) =>
      if x.sess.draining.Some? then PollHead
      else if todo != {} then (var id :| id in todo; BeginDrain(id))
      else if ended != {} then (var id :| id in ended; Remove(id))
      else EndServing
  }

  lemma WillingSends(x: Endpoint, y: Endpoint)
    requires EP.Mirror(x) && EP.Phased(x.sess) && !x.sess.phase.Reading? && !x.sess.phase.Serving?
    ensures var l := Willing(x, y);
            && OwnStep(l) && Fair(x, y, Internal(l)) && Flushed(x, Internal(l)) && (Productive(x, l) || Clean(x, y, l))
            && (l.BeginPoll? <==> x.sess.phase.Resting?)
  {
    hide PollNext, Codec.NextFrame;
    assert x.sess.draining.None?;
  }

  /** Between two sessions whatever is parsed is for a stream. */
  lemma ParsesStream(x: Endpoint, y: Endpoint, server: bool)
    requires Busy(x, y, server) && !Codec.NextFrame(x.sess.reader).1.NeedMore?
    ensures Codec.NextFrame(x.sess.reader).1.Parsed? && Codec.NextFrame(x.sess.reader).1.frame.StreamFrame?
  {
    hide Half, Codec.NextFrame, EP.EInv;
    EInvOf(x, server);
    EInvOf(y, !server);
    NextIsStream(x, y);
  }

  lemma WillingReads(x: Endpoint, y: Endpoint, server: bool)
    requires Busy(x, y, server) && EP.Phased(x.sess) && x.sess.phase.Reading?
    ensures var l := Willing(x, y);
            && OwnStep(l) && Fair(x, y, Internal(l)) && Flushed(x, Internal(l)) && (Productive(x, l) || Clean(x, y, l))
            && !l.BeginPoll?
  {
    hide Busy, PollNext, Codec.NextFrame;
    if !Codec.NextFrame(x.sess.reader).1.NeedMore? {
      ParsesStream(x, y, server);
    }
  }

  lemma WillingServes(x: Endpoint, y: Endpoint)
    requires EP.Mirror(x) && EP.Phased(x.sess) && x.sess.phase.Serving?
    ensures var l := Willing(x, y);
            && OwnStep(l) && Fair(x, y, Internal(l)) && Flushed(x, Internal(l)) && (Productive(x, l) || Clean(x, y, l))
            && !l.BeginPoll?
  {
    hide PollNext, Codec.NextFrame;
  }

  /** A poll under way can always go on. */
  lemma WillingGoesOn(x: Endpoint, y: Endpoint, server: bool)
    requires Busy(x, y, server)
    ensures var l := Willing(x, y);
            && OwnStep(l) && Fair(x, y, Internal(l)) && Flushed(x, Internal(l)) && (Productive(x, l) || Clean(x, y, l))
            && (l.BeginPoll? <==> x.sess.phase.Resting?)
  {
    hide Half, Willing, EP.Mirror, EP.Phased, Fair, Flushed, Productive, Clean, OnlyStreams;
    PhasedOf(x, server);
    match x.sess.phase
    case Reading(_) => WillingReads(x, y, server);
    case Serving(_, _, _) => WillingServes(x, y);
    case _ => WillingSends(x, y);
  }

  // --- Rest is within reach ----------------------------------------------------------------

  /** A run of the sessions in which every flush hands over all there is. */
  predicate FlushedRun(s: System, moves: seq<Move>) {
    moves == [] ||
    var front := moves[..|moves| - 1];
    FlushedRun(s, front) && (Reach(s, front).Some? ==> FlushedMove(Reach(s, front).value, moves[|moves| - 1]))
  }

  lemma {:induction false} FlushedRunDry(s: System, moves: seq<Move>)
    requires AllDry(s) && Reach(s, moves).Some? && FlushedRun(s, moves)
    ensures AllDry(Reach(s, moves).value)
  {
    hide AllDry, Allowed, Apply, FlushedMove;
    if moves == [] {
    } else {
      FlushedRunDry(s, moves[..|moves| - 1]);
      MoveDry(Reach(s, moves[..|moves| - 1]).value, moves[|moves| - 1]);
    }
  }

  lemma {:induction false} FlushedAppend(s: System, a: seq<Move>, b: seq<Move>)
    requires Reach(s, a).Some? && FlushedRun(s, a) && FlushedRun(Reach(s, a).value, b)
    ensures FlushedRun(s, a + b)
  {
    hide FlushedMove, Reach;
    if b == [] {
      assert a + b == a;
    } else {
      var n := |b| - 1;
      assert (a + b)[..|a + b| - 1] == a + b[..n];
      FlushedAppend(s, a, b[..n]);
      ReachAppend(s, a, b[..n]);
    }
  }

  /** One willing move of one side. */
  lemma OneMove(s: System, server: bool) returns (m: Move, t: System)
    requires Working(s)
    ensures m == Move(server, Internal(Willing(Side(s, server), Side(s, !server)))) && SessionMove(m)
    ensures Allowed(s, m) && t == Apply(s, m) && Reach(s, [m]) == Some(t) && FlushedRun(s, [m])
    ensures Working(t) && Weight(t) <= Weight(s) && (Weight(t) < Weight(s) || CleanMove(s, m))
    ensures m.action.step.BeginPoll? <==> Side(s, server).sess.phase.Resting?
    ensures Side(t, !server) == Side(s, !server)
  {
    hide Busy, Working, Weight, Apply, Allowed, Willing, Fair, Productive, Clean, Flushed;
    BusySide(s, server);
    var x, y := Side(s, server), Side(s, !server);
    WillingGoesOn(x, y, server);
    m := Move(server, Internal(Willing(x, y)));
    SideMove(s, server, Willing(x, y));
    MoveWorks(s, m);
    ReachOne(s, m);
    t := Apply(s, m);
    assert Reach(s, [m][..0]) == Some(s) && [m][..0] == [];
  }

  lemma CleanMoveRank(s: System, m: Move)
    requires Working(s) && Allowed(s, m) && CleanMove(s, m) && m.action.Internal? && !m.action.step.BeginPoll?
    ensures Rank(Side(Apply(s, m), m.byServer).sess) < Rank(Side(s, m.byServer).sess)
  {
    hide Working, Act, CanAct, Rank, Clean, EP.Mirror, EP.Phased;
    PhasedSide(s, m.byServer);
    CleanRank(Side(s, m.byServer), Side(s, !m.byServer), m.action.step);
  }

  /** A poll has ended without anything having got done. */
  predicate PollEnded(s: System, t: System, server: bool) {
    && Side(t, server).sess.phase.Resting?
    && (Checked(Side(s, server), Side(s, !server)) ==> SideStill(Side(t, server), Side(t, !server)))
    && (SideStill(Side(s, !server), Side(s, server)) ==> SideStill(Side(t, !server), Side(t, server)))
  }

  lemma PollFinds(s: System, m: Move, server: bool)
    requires Working(s) && Allowed(s, m) && CleanMove(s, m) && SessionMove(m)
    ensures Checked(Side(s, server), Side(s, !server)) ==>
              Checked(Side(Apply(s, m), server), Side(Apply(s, m), !server))
    ensures SideStill(Side(s, !server), Side(s, server)) ==>
              SideStill(Side(Apply(s, m), !server), Side(Apply(s, m), server))
  {
    hide Working, Apply, Allowed, CleanMove, SideStill, Checked, SessionMove;
    if Checked(Side(s, server), Side(s, !server)) {
      CheckedStays(s, m, server);
    }
    if SideStill(Side(s, !server), Side(s, server)) {
      StillUnderClean(s, m, !server);
    }
  }

  /** The poll under way ends. Either something gets done, or what it finds is that the side is still. */
  lemma {:induction false} EndPoll(s: System, server: bool) returns (moves: seq<Move>)
    requires Working(s)
    ensures SessionsOnly(moves) && Reach(s, moves).Some? && FlushedRun(s, moves)
    ensures var t := Reach(s, moves).value;
            Working(t) && Weight(t) <= Weight(s) && (Weight(t) < Weight(s) || PollEnded(s, t, server))
    decreases Rank(Side(s, server).sess)
  {
    hide Working, Weight, Apply, Allowed, SideStill, Rank, CleanMove, FlushedMove, Willing, SessionMove;
    if Side(s, server).sess.phase.Resting? {
      moves := [];
    } else {
      var m, t := OneMove(s, server);
      if Weight(t) < Weight(s) {
        moves := [m];
      } else {
        CleanMoveRank(s, m);
        PollFinds(s, m, server);
        var more := EndPoll(t, server);
        ReachAppend(s, [m], more);
        FlushedAppend(s, [m], more);
        moves := [m] + more;
      }
    }
  }

  function Moving(s: System): nat {
    (if SideStill(s.client, s.server) then 0 else 1) + if SideStill(s.server, s.client) then 0 else 1
  }

  predicate Progress(s: System, t: System, server: bool) {
    && SideStill(Side(t, server), Side(t, !server))
    && (SideStill(Side(s, !server), Side(s, server)) ==> SideStill(Side(t, !server), Side(t, server)))
  }

  lemma ProgressMoves(s: System, t: System, server: bool)
    requires Progress(s, t, server) && !SideStill(Side(s, server), Side(s, !server))
    ensures Moving(t) < Moving(s)
  {
    hide SideStill;
  }

  lemma PollsProgress(s: System, t: System, u: System, server: bool)
    requires SideStill(Side(s, !server), Side(s, server)) ==> SideStill(Side(t, !server), Side(t, server))
    requires PollEnded(t, u, server) && Checked(Side(t, server), Side(t, !server))
    ensures Progress(s, u, server)
  {
    hide SideStill, Checked;
  }

  /** A whole poll: something gets done, or the side is still after it. */
  lemma WholePoll(s: System, server: bool) returns (moves: seq<Move>)
    requires Working(s) && Side(s, server).sess.phase.Resting?
    ensures SessionsOnly(moves) && Reach(s, moves).Some? && FlushedRun(s, moves)
    ensures var t := Reach(s, moves).value;
            Working(t) && Weight(t) <= Weight(s) && (Weight(t) < Weight(s) || Progress(s, t, server))
  {
    hide Working, Weight, Apply, Allowed, SideStill, Rank, CleanMove, FlushedMove, FlushedRun, Willing, SessionMove;
    hide Checked, PollEnded, Progress, Reach;
    var m, t := OneMove(s, server);
    if Weight(t) < Weight(s) {
      moves := [m];
    } else {
      PollFinds(s, m, server);
      assert m == Move(server, Internal(BeginPoll));
      BegunChecks(s, server);
      var more := EndPoll(t, server);
      ReachAppend(s, [m], more);
      FlushedAppend(s, [m], more);
      moves := [m] + more;
      if Weight(Reach(t, more).value) == Weight(s) {
        PollsProgress(s, t, Reach(t, more).value, server);
      }
    }
  }

  /** A side that is not still is polled: something gets done, or it is still then. */
  lemma OnePollMore(s: System, server: bool) returns (moves: seq<Move>)
    requires Working(s) && !SideStill(Side(s, server), Side(s, !server))
    ensures SessionsOnly(moves) && Reach(s, moves).Some? && FlushedRun(s, moves)
    ensures var t := Reach(s, moves).value;
            Working(t) && Weight(t) <= Weight(s) && (Weight(t) < Weight(s) || Moving(t) < Moving(s))
  {
    hide Working, Weight, Apply, Allowed, SideStill, Rank, FlushedRun, SessionMove, Checked, Reach, Moving;
    moves := EndPoll(s, server);
    var t := Reach(s, moves).value;
    if Weight(t) == Weight(s) {
      var more := WholePoll(t, server);
      ReachAppend(s, moves, more);
      FlushedAppend(s, moves, more);
      moves := moves + more;
      if Weight(Reach(t, more).value) == Weight(t) {
        ProgressMoves(s, Reach(t, more).value, server);
      }
    }
  }

  /** From every state the sessions, left alone, can come to one that is still, without a flush
      that is refused anything. */
  lemma {:induction false} RestIsReachable(s: System) returns (moves: seq<Move>)
    requires Working(s)
    ensures SessionsOnly(moves) && Reach(s, moves).Some? && Still(Reach(s, moves).value) && FlushedRun(s, moves)
    decreases Weight(s), Moving(s)
  {
    hide Working, Weight, Moving, SideStill, SessionMove, FlushedMove;
    if Still(s) {
      moves := [];
    } else {
      var first := OnePollMore(s, SideStill(s.client, s.server));
      var rest := RestIsReachable(Reach(s, first).value);
      ReachAppend(s, first, rest);
      FlushedAppend(s, first, rest);
      moves := first + rest;
    }
  }

  /** What was written can be delivered. From every reachable state in which no bytes are stranded
      already, the sessions, left alone, can come to rest, by productive moves no more than the state
      weighs; what the users had written is unchanged then, and every stream has settled. */
  lemma {:induction false} WrittenIsDelivered(s: System, limits: (nat, nat), moves: seq<Move>)
    returns (more: seq<Move>, t: System)
    requires Reachable(s, limits, moves) && AllDry(s)
    ensures SessionsOnly(more) && Reach(s, more) == Some(t) && Productives(s, more) <= Weight(s)
    ensures SameUsers(s.client, t.client) && SameUsers(s.server, t.server)
    ensures AtRest(t) && AllSettled(t)
  {
    hide Weight, Working, SessionMove, Still, AtRest, AllSettled, SameUsers, AllDry, Stranded, Complete;
    ReachableWorks(s, limits, moves);
    more := RestIsReachable(s);
    t := Reach(s, more).value;
    WorkRunsOut(s, more);
    RunKeepsUsers(s, more);
    FlushedRunDry(s, more);
    DryIsFree(t);
    ReachAppend(Start(limits.0, limits.1), moves, more);
    StillEnds(t, limits, moves + more);
  }

  // --- What is stranded stays stranded -----------------------------------------------------

  lemma {:induction false} StillRun(s: System, moves: seq<Move>)
    requires Working(s) && Still(s) && Reach(s, moves).Some? && SessionsOnly(moves)
    ensures var t := Reach(s, moves).value; Working(t) && Still(t) && SameBuffers(s, t)
  {
    hide Working, Still, Allowed, Apply, SessionMove;
    if moves == [] {
    } else {
      var front, m := moves[..|moves| - 1], moves[|moves| - 1];
      StillRun(s, front);
      MoveWorks(Reach(s, front).value, m);
      MoveStill(Reach(s, front).value, m);
    }
  }

  /** However often two still sessions are polled, and however willing their byte streams are, the
      bytes left in a buffer stay there and do not arrive. */
  lemma StrandedForGood(s: System, limits: (nat, nat), moves: seq<Move>, more: seq<Move>)
    requires Reachable(s, limits, moves) && Still(s) && Stranded(s)
    requires SessionsOnly(more) && Reach(s, more).Some?
    ensures var t := Reach(s, more).value;
            && SameBuffers(s, t) && Still(t) && !AtRest(t)
            && !(Complete(t.client, t.server) && Complete(t.server, t.client))
  {
    hide Working, Still, AtRest, Complete, SessionMove, Reachable;
    ReachableWorks(s, limits, moves);
    StillRun(s, more);
    StillSystem(Reach(s, more).value);
  }
}
