/** The session and its transport, on values: every atomic thing `poll_next` does is a label, so
    that one call is a sequence of labels and user code may run between any two of them. */
module SessionModel {
  import opened Wire
  import opened StreamModel
  import Codec

  /** Where `poll_next` is. `sent` says whether this call has handed anything to the encoder, `asked`
      whether the byte stream has just been asked to take what is buffered, `todo` which heads are
      still to be drained and `ended` which of the others are to be removed. */
  datatype Phase =
    | Resting
    | Sending(first: bool, sent: bool, asked: bool)
    | Reading(sent: bool)
    | Serving(sent: bool, todo: set<u32>, ended: set<u32>)
    | Flushing

  datatype Session = Session(
    streams: map<u32, Stream>,
    nextId: u32,
    outQueue: seq<Frame>,
    buffer: seq<byte>,
    limit: nat,
    reader: Codec.Reader,
    draining: Option<u32>,
    phase: Phase)

  function NewSession(isServer: bool, limit: nat): Session {
    Session(map[], if isServer then 2 else 1, [], [], limit, Codec.NEW_READER, None, Resting)
  }

  /** `Offer(n)` hands what is buffered to the byte stream, which takes `n` bytes of it. */
  datatype Label =
    | OpenStream
    | BeginPoll
    | Offer(n: nat)
    | StartSend
    | Leave
    | Receive(segment: Chunk)
    | NextFrame
    | StopReading
    | BeginDrain(id: u32)
    | PollHead
    | Remove(id: u32)
    | EndServing
    | User(id: u32, op: Op)

  function NextId(id: u32): u32 {
    var n := (id + 2) % 0x1_0000_0000;
    if n == 0 then 2 else n
  }

  /** `poll_ready`: after the drain attempt either everything has gone, or the limit decides. */
  predicate SendReady(s: Session) {
    s.buffer == [] || |s.buffer| < s.limit
  }

  predicate EndsRun(f: Frame) {
    f.SessionFrame? && f.control.GoAway?
  }

  /** The byte stream is asked before every frame that is sent, and at the end of a call that sent
      something; never otherwise. */
  predicate Offers(s: Session) {
    (s.phase.Sending? && !s.phase.asked && s.outQueue != []) || s.phase.Flushing?
  }

  /** A loop that sends ends when the queue is empty or the byte stream not ready for more. */
  predicate Leaves(s: Session) {
    s.phase.Sending? && if s.phase.asked then !SendReady(s) else s.outQueue == []
  }

  predicate Enabled(s: Session, l: Label) {
    match l
    case OpenStream => s.phase.Resting? && s.draining.None?
    case BeginPoll => s.phase.Resting? && s.draining.None?
    case Offer(n) => n <= |s.buffer| && s.draining.None? && Offers(s)
    case StartSend => s.outQueue != [] && s.draining.None? && s.phase.Sending? && s.phase.asked && SendReady(s)
    case Leave => s.draining.None? && Leaves(s)
    case Receive(c) =>
      1 <= |c| <= READ_BUFFER && s.draining.None? && s.phase.Reading? && Codec.NextFrame(s.reader).1.NeedMore?
    case NextFrame =>
      var next := Codec.NextFrame(s.reader).1;
      s.draining.None? && s.phase.Reading? && next.Parsed? && !EndsRun(next.frame)
    case StopReading => s.draining.None? && s.phase.Reading? && Codec.NextFrame(s.reader).1.NeedMore?
    case BeginDrain(id) => id in s.streams && s.draining.None? && s.phase.Serving? && id in s.phase.todo
    case PollHead => s.draining.Some? && s.draining.value in s.streams && s.phase.Serving?
    case Remove(id) =>
      && id in s.streams && s.draining.None? && PollNext(s.streams[id]).1.Finished?
      && s.phase.Serving? && s.phase.todo == {} && id in s.phase.ended
    case EndServing => s.draining.None? && s.phase.Serving? && s.phase.todo == {} && s.phase.ended == {}
    case User(id, op) => id in s.streams && (op.Write? || op.CloseUser? || op.DropUser?)
  }

  predicate Accepts(s: Session, f: Frame) {
    f.StreamFrame? && f.id !in s.streams && !f.event.DataChunk? && f.event.flags.syn
  }

  function OnInputOrSame(s: Stream, e: StreamEvent): Stream {
    match OnInput(s, e) case Ok(s') => s' case Err(_) => s
  }

  /** One inbound frame. An error of the head is logged and otherwise ignored. */
  function Dispatch(s: Session, f: Frame): Session {
    match f
    case SessionFrame(Ping(flags, code)) =>
      if flags.syn then s.(outQueue := s.outQueue + [SessionFrame(Ping(ACK, code))]) else s
    case SessionFrame(GoAway(_)) => s
    case StreamFrame(id, e) =>
      if id in s.streams then s.(streams := s.streams[id := OnInputOrSame(s.streams[id], e)])
      else if Accepts(s, f) then s.(streams := s.streams[id := OnInputOrSame(NewStream(false), e)])
      else s
  }

  function UserStep(s: Stream, op: Op): Stream {
    match op
    case Write(buf) => WriteUp(s, buf)
    case CloseUser => CloseUp(s)
    case DropUser => DropHandle(s)
    case _ => s
  }

  function AfterOffer(p: Phase): Phase {
    if p.Sending? then p.(asked := true) else Resting
  }

  function AfterLeave(p: Phase): Phase
    requires p.Sending?
  {
    if p.first then Reading(p.sent) else if p.sent then Flushing else Resting
  }

  /** A call that accepts a stream returns with it at once. */
  function Taken(s: Session, f: Frame): Session {
    if Accepts(s, f) then Dispatch(s, f).(phase := Resting) else Dispatch(s, f)
  }

  function Do(s: Session, l: Label): Session
    requires Enabled(s, l)
  {
    match l
    case OpenStream => s.(streams := s.streams[s.nextId := NewStream(true)], nextId := NextId(s.nextId))
    case BeginPoll => s.(phase := Sending(true, false, false))
    case Offer(n) => s.(buffer := s.buffer[n..], phase := AfterOffer(s.phase))
    case StartSend =>
      s.(outQueue := s.outQueue[1..], buffer := s.buffer + Encode(s.outQueue[0]),
         phase := s.phase.(sent := true, asked := false))
    case Leave => s.(phase := AfterLeave(s.phase))
    case Receive(c) => s.(reader := s.reader.(segments := s.reader.segments + [c]))
    case NextFrame =>
      var (reader, next) := Codec.NextFrame(s.reader);
      Taken(s.(reader := reader), next.frame)
    case StopReading => s.(phase := Serving(s.phase.sent, s.streams.Keys, {}))
    case BeginDrain(id) => s.(draining := Some(id), phase := s.phase.(todo := s.phase.todo - {id}))
    case PollHead =>
      var id := s.draining.value;
      (match PollNext(s.streams[id])
       case (st, Ready(e)) => s.(streams := s.streams[id := st], outQueue := s.outQueue + [StreamFrame(id, e)])
       case (st, Blocked) => s.(streams := s.streams[id := st], draining := None)
       case (st, Finished) =>
         s.(streams := s.streams[id := st], draining := None, phase := s.phase.(ended := s.phase.ended + {id})))
    case Remove(id) => s.(streams := s.streams - {id}, phase := s.phase.(ended := s.phase.ended - {id}))
    case EndServing => s.(phase := Sending(false, s.phase.sent, false))
    case User(id, op) => s.(streams := s.streams[id := UserStep(s.streams[id], op)])
  }

  // --- Sequences of labels -----------------------------------------------------------------

  /** What `poll_next` itself does, as opposed to its callers. */
  predicate OwnStep(l: Label) {
    !l.OpenStream? && !l.User?
  }

  /** Where a sequence of the session's own labels leads, if each is enabled in its turn. */
  function Perform(s: Session, ls: seq<Label>): Option<Session> {
    if ls == [] then Some(s)
    else
      match Perform(s, ls[..|ls| - 1])
      case None => None
      case Some(t) => if OwnStep(ls[|ls| - 1]) && Enabled(t, ls[|ls| - 1]) then Some(Do(t, ls[|ls| - 1])) else None
  }

  /** Labels of one call after its beginning. */
  predicate Within(ls: seq<Label>) {
    forall l | l in ls :: !l.BeginPoll?
  }

  /** The labels of one call. */
  predicate OnePoll(ls: seq<Label>) {
    ls != [] && ls[0].BeginPoll? && Within(ls[1..])
  }

  // What a sequence of labels exchanges with the network.

  function LeavesBy(s: Session, l: Label): seq<byte> {
    if l.Offer? && l.n <= |s.buffer| then s.buffer[..l.n] else []
  }

  function ArrivesBy(l: Label): seq<byte> {
    if l.Receive? then l.segment else []
  }

  function BytesOut(s: Session, ls: seq<Label>): seq<byte> {
    if ls == [] then []
    else
      BytesOut(s, ls[..|ls| - 1])
      + match Perform(s, ls[..|ls| - 1]) case Some(t) => LeavesBy(t, ls[|ls| - 1]) case None => []
  }

  /** An offer that leaves something behind is one the byte stream has refused to take further. */
  function RefusedBy(s: Session, l: Label): nat {
    if l.Offer? && l.n < |s.buffer| then 1 else 0
  }

  function Refusals(s: Session, ls: seq<Label>): nat {
    if ls == [] then 0
    else
      Refusals(s, ls[..|ls| - 1])
      + match Perform(s, ls[..|ls| - 1]) case Some(t) => RefusedBy(t, ls[|ls| - 1]) case None => 0
  }

  function BytesIn(ls: seq<Label>): seq<byte> {
    FlatMap(ArrivesBy, ls)
  }

  lemma {:induction false} PerformConcat(s: Session, a: seq<Label>, b: seq<Label>)
    requires Perform(s, a).Some?
    ensures Perform(s, a + b) == Perform(Perform(s, a).value, b)
  {
    hide Enabled, Do;
    if b == [] {
      assert a + b == a;
    } else {
      var n := |b| - 1;
      assert (a + b)[..|a + b| - 1] == a + b[..n];
      PerformConcat(s, a, b[..n]);
    }
  }

  lemma {:induction false} BytesConcat(s: Session, a: seq<Label>, b: seq<Label>)
    requires Perform(s, a).Some?
    ensures BytesOut(s, a + b) == BytesOut(s, a) + BytesOut(Perform(s, a).value, b)
    ensures Refusals(s, a + b) == Refusals(s, a) + Refusals(Perform(s, a).value, b)
    ensures BytesIn(a + b) == BytesIn(a) + BytesIn(b)
  {
    hide Perform, LeavesBy, ArrivesBy, RefusedBy;
    FlatMapConcat(ArrivesBy, a, b);
    if b == [] {
      assert a + b == a;
    } else {
      var n := |b| - 1;
      assert (a + b)[..|a + b| - 1] == a + b[..n];
      BytesConcat(s, a, b[..n]);
      PerformConcat(s, a, b[..n]);
    }
  }

  lemma PerformSnoc(s: Session, ls: seq<Label>, l: Label)
    requires Perform(s, ls).Some? && OwnStep(l) && Enabled(Perform(s, ls).value, l)
    ensures Perform(s, ls + [l]) == Some(Do(Perform(s, ls).value, l))
    ensures BytesOut(s, ls + [l]) == BytesOut(s, ls) + LeavesBy(Perform(s, ls).value, l)
    ensures BytesIn(ls + [l]) == BytesIn(ls) + ArrivesBy(l)
    ensures Refusals(s, ls + [l]) == Refusals(s, ls) + RefusedBy(Perform(s, ls).value, l)
  {
    hide LeavesBy, ArrivesBy, RefusedBy;
    assert (ls + [l])[..|ls + [l]| - 1] == ls;
  }

  /** One label further. */
  lemma Onwards(s: Session, ls: seq<Label>, t: Session, l: Label) returns (ls': seq<Label>, t': Session)
    requires Perform(s, ls) == Some(t) && OwnStep(l) && Enabled(t, l)
    ensures ls' == ls + [l] && t' == Do(t, l) && Perform(s, ls') == Some(t')
  {
    hide Perform, Do, Enabled, BytesOut, BytesIn;
    PerformSnoc(s, ls, l);
    ls', t' := ls + [l], Do(t, l);
  }

  lemma PerformNothing(s: Session)
    ensures Perform(s, []) == Some(s) && BytesOut(s, []) == [] && BytesIn([]) == [] && Refusals(s, []) == 0
  {
  }

  // --- One endpoint with its history -------------------------------------------------------

  /** `started` went to the encoder, `sent` to the network; `got` came from the network and
      `inputs` was parsed out of it. `runs` keeps the history of every stream, removed or not. */
  datatype Endpoint = Endpoint(
    sess: Session,
    runs: map<u32, History>,
    handles: map<u32, Handle>,
    started: seq<Frame>,
    inputs: seq<Frame>,
    sent: seq<byte>,
    got: seq<byte>)

  function NewEndpoint(isServer: bool, limit: nat): Endpoint {
    Endpoint(NewSession(isServer, limit), map[], map[], [], [], [], [])
  }

  function Queued(e: Endpoint): seq<Frame> {
    e.started + e.sess.outQueue
  }

  /** What has been queued for a stream, sent or not. */
  function Sent(e: Endpoint, id: u32): seq<Item> {
    Project(Tokens(Queued(e)), id)
  }

  datatype Action = Internal(step: Label) | Read(id: u32, size: nat)

  predicate CanAct(e: Endpoint, a: Action) {
    match a
    case Internal(l) =>
      Enabled(e.sess, l) && (l.User? ==> l.id in e.runs) && (l.PollHead? ==> e.sess.draining.value in e.runs)
    case Read(id, _) => id in e.runs && id in e.handles
  }

  function RunsAfterFrame(e: Endpoint, f: Frame): map<u32, History> {
    if f.SessionFrame? then e.runs
    else if f.id in e.sess.streams && f.id in e.runs then e.runs[f.id := Step(e.runs[f.id], Input(f.event))]
    else if Accepts(e.sess, f) then e.runs[f.id := Step(Birth(false), Input(f.event))]
    else e.runs
  }

  function Act(e: Endpoint, a: Action): Endpoint
    requires CanAct(e, a)
  {
    match a
    case Read(id, n) =>
      var st := e.runs[id].s;
      var (h, _) := PollRead(e.handles[id], st.down, id in e.sess.streams && st.tx, n);
      e.(handles := e.handles[id := h])
    case Internal(l) =>
      var sess := Do(e.sess, l);
      (match l
       case OpenStream =>
         var id := e.sess.nextId;
         e.(sess := sess, runs := e.runs[id := Birth(true)], handles := e.handles[id := NEW_HANDLE])
       case StartSend => e.(sess := sess, started := e.started + [e.sess.outQueue[0]])
       case Offer(n) => e.(sess := sess, sent := e.sent + e.sess.buffer[..n])
       case Receive(c) => e.(sess := sess, got := e.got + c)
       case NextFrame =>
         var f := Codec.NextFrame(e.sess.reader).1.frame;
         e.(sess := sess, inputs := e.inputs + [f], runs := RunsAfterFrame(e, f),
            handles := if Accepts(e.sess, f) then e.handles[f.id := NEW_HANDLE] else e.handles)
       case PollHead =>
         var id := e.sess.draining.value;
         e.(sess := sess, runs := e.runs[id := Step(e.runs[id], Poll)])
       case User(id, op) => e.(sess := sess, runs := e.runs[id := Step(e.runs[id], op)])
       case _ => e.(sess := sess))
  }
}
