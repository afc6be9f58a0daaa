/** One end of a logical stream, on values: the session-driven head together with the two
    channels that tie it to the user's handle. */
module StreamModel {
  import opened Wire

  const INITIAL_WINDOW: nat := 262144
  const UPDATE_THRESHOLD: nat := 131072

  /** The largest window update a head can owe: one read on top of just less than the threshold. */
  const MAX_DELTA: nat := 131077

  /** `up` is the bounded channel from the user, `down` everything ever put into the unbounded
      channel towards the user; an empty chunk in either is the close marker. */
  datatype Stream = Stream(
    local: bool,
    remote: bool,
    send: nat,
    recv: nat,
    outs: seq<StreamEvent>,
    recvState: Option<nat>,
    tx: bool,
    up: seq<Chunk>,
    upClosed: bool,
    down: seq<Chunk>,
    userGone: bool)

  function NewStream(opener: bool): Stream {
    var first := WindowUpdate(if opener then SYN else ACK, INITIAL_WINDOW);
    Stream(true, !opener, INITIAL_WINDOW, 0, [first], None, true, [], false, [], false)
  }

  // --- The head's operations ---------------------------------------------------------------

  function SendDown(s: Stream, c: Chunk): Stream {
    if !s.tx then s
    else if s.userGone then s.(tx := false)
    else s.(down := s.down + [c])
  }

  function CloseLocal(s: Stream): Stream {
    if s.local then s.(local := false, outs := s.outs + [WindowUpdate(FIN, 0)]) else s
  }

  function CloseRemote(s: Stream): Stream {
    if s.remote then SendDown(s.(remote := false), []) else s
  }

  function HandleFlags(s: Stream, f: Flags): Stream {
    var acked := if f.ack then s.(remote := true) else s;
    var reset := if f.rst then CloseRemote(CloseLocal(acked)) else acked;
    if f.fin then CloseRemote(reset) else reset
  }

  /** What the flags of one header do, in whatever combination they come. FIN and RST close the remote
      half even if the same header opens it; the user is told once, if it is still there. */
  lemma FlagsExactly(s: Stream, f: Flags)
    ensures var s' := HandleFlags(s, f);
            var told := (s.remote || f.ack) && (f.fin || f.rst) && s.tx;
            && (f.fin || f.rst ==> !s'.remote)
            && (f.ack && !f.fin && !f.rst ==> s'.remote)
            && (!f.ack && !f.fin && !f.rst ==> s'.remote == s.remote)
            && s'.local == (s.local && !f.rst)
            && s'.outs == s.outs + (if f.rst && s.local then [WindowUpdate(FIN, 0)] else [])
            && s'.down == s.down + (if told && !s.userGone then [[]] else [])
            && s'.tx == (s.tx && !(told && s.userGone))
            && s'.send == s.send && s'.recv == s.recv && s'.recvState == s.recvState
            && s'.up == s.up && s'.upClosed == s.upClosed && s'.userGone == s.userGone
  {
  }

  function MarkReceived(s: Stream, n: nat): Stream {
    var total := s.recv + n;
    if total + CHUNK_CAPACITY >= UPDATE_THRESHOLD then
      s.(recv := 0, outs := s.outs + [WindowUpdate(NO_FLAGS, total % 0x1_0000_0000)])
    else s.(recv := total)
  }

  datatype HeadError = InvalidFrameType | InvalidDataChunkSize

  /** An error leaves the head as it was. */
  function OnInput(s: Stream, e: StreamEvent): Result<Stream, HeadError> {
    match e
    case Data(flags, size) =>
      if s.recvState.Some? then Err(InvalidFrameType)
      else Ok(HandleFlags(s, flags).(recvState := Some(size)))
    case DataChunk(c) =>
      if s.recvState.None? then Err(InvalidFrameType)
      else if s.recvState.value < |c| then Err(InvalidDataChunkSize)
      else
        var left := s.recvState.value - |c|;
        Ok(MarkReceived(SendDown(s, c).(recvState := if left == 0 then None else Some(left)), |c|))
    case WindowUpdate(flags, delta) =>
      var h := HandleFlags(s, flags);
      Ok(h.(send := h.send + delta))
  }

  /** When an event is refused, and with which error. */
  lemma RefusedExactly(s: Stream, e: StreamEvent)
    ensures OnInput(s, e) == Err(InvalidFrameType) <==>
              (e.Data? && s.recvState.Some?) || (e.DataChunk? && s.recvState.None?)
    ensures OnInput(s, e) == Err(InvalidDataChunkSize) <==>
              e.DataChunk? && s.recvState.Some? && |e.chunk| > s.recvState.value
  {
    hide HandleFlags, MarkReceived, SendDown;
  }

  /** What an accepted payload chunk does: it counts towards the payload and the credit to return, and
      goes to the user if it is still there. */
  lemma ChunkExactly(s: Stream, c: Chunk)
    requires OnInput(s, DataChunk(c)).Ok?
    ensures var (s', total) := (OnInput(s, DataChunk(c)).value, s.recv + |c|);
            && s.recvState.Some? && |c| <= s.recvState.value
            && s'.recvState == (if |c| == s.recvState.value then None else Some(s.recvState.value - |c|))
            && s'.down == s.down + (if s.tx && !s.userGone then [c] else [])
            && s'.tx == (s.tx && !s.userGone)
            && s'.recv == (if total >= 126982 then 0 else total)
            && s'.outs == s.outs
                 + (if total >= 126982 then [WindowUpdate(NO_FLAGS, total % 0x1_0000_0000)] else [])
            && s'.local == s.local && s'.remote == s.remote && s'.send == s.send
            && s'.up == s.up && s'.upClosed == s.upClosed && s'.userGone == s.userGone
  {
  }

  /** What an accepted header does besides what its flags do. */
  lemma HeaderExactly(s: Stream, e: StreamEvent)
    requires OnInput(s, e).Ok? && !e.DataChunk?
    ensures var s' := OnInput(s, e).value;
            && s'.recvState == (if e.Data? then Some(e.size) else s.recvState)
            && s'.send == s.send + (if e.Data? then 0 else e.delta)
            && s'.(recvState := s.recvState, send := s.send) == HandleFlags(s, e.flags)
  {
    hide CloseRemote, CloseLocal;
    FlagsExactly(s, e.flags);
  }

  /** One chunk out of the user's channel. */
  function TakeChunk(s: Stream): Stream
    requires s.up != []
  {
    var c, rest := s.up[0], s.(up := s.up[1..]);
    if c == [] then CloseLocal(rest)
    else
      rest.(send := if |c| <= s.send then s.send - |c| else 0,
            outs := s.outs + [Data(NO_FLAGS, |c| % 0x1_0000_0000), DataChunk(c)])
  }

  function Fill(s: Stream): Stream
    decreases |s.up|
  {
    if s.send < CHUNK_CAPACITY then s
    else if s.up != [] then Fill(TakeChunk(s))
    else if s.upClosed then CloseLocal(s)
    else s
  }

  datatype Polled = Ready(event: StreamEvent) | Blocked | Finished

  function PopOut(s: Stream): (Stream, Polled) {
    if s.outs == [] then (s, Blocked) else (s.(outs := s.outs[1..]), Ready(s.outs[0]))
  }

  function PollNext(s: Stream): (Stream, Polled) {
    if s.outs != [] then PopOut(s)
    else if !s.local && !s.remote then (s, Finished)
    else PopOut(Fill(s))
  }

  // --- The user's operations ---------------------------------------------------------------

  /** A write hands over at most one chunk's worth of the buffer. */
  function WriteUp(s: Stream, buf: seq<byte>): Stream {
    var n := if |buf| < CHUNK_CAPACITY then |buf| else CHUNK_CAPACITY;
    if s.upClosed then s else s.(up := s.up + [buf[..n]])
  }

  /** What a write hands over is the front of the buffer, all of it if a chunk can hold it. */
  lemma WriteExactly(s: Stream, buf: seq<byte>)
    ensures s.upClosed ==> WriteUp(s, buf) == s
    ensures !s.upClosed ==> WriteUp(s, buf) == s.(up := s.up + [buf[..if |buf| < 4090 then |buf| else 4090]])
    ensures !s.upClosed && |buf| <= 4090 ==> WriteUp(s, buf) == s.(up := s.up + [buf])
  {
    assert buf[..|buf|] == buf;
  }

  function CloseUp(s: Stream): Stream {
    s.(upClosed := true)
  }

  function DropHandle(s: Stream): Stream {
    s.(upClosed := true, userGone := true)
  }

  /** The reading half of the user's handle: how many chunks it has taken, what is unread of
      the last one, all it has read, and whether it was told of the end. */
  datatype Handle = Handle(taken: nat, rest: seq<byte>, read: seq<byte>, eof: bool)

  const NEW_HANDLE := Handle(0, [], [], false)

  datatype ReadResult = Got(bytes: seq<byte>) | NotYet | Broken

  function ReadRest(h: Handle, n: nat): (Handle, ReadResult) {
    var len := if n < |h.rest| then n else |h.rest|;
    (h.(rest := h.rest[len..], read := h.read + h.rest[..len]), Got(h.rest[..len]))
  }

  /** `PollRead` into a buffer of `n` bytes; `tx` says whether the head still holds its sender. */
  function PollRead(h: Handle, down: seq<Chunk>, tx: bool, n: nat): (Handle, ReadResult) {
    if h.rest != [] then ReadRest(h, n)
    else if h.taken >= |down| then (h, if tx then NotYet else Broken)
    else if down[h.taken] == [] then (h.(taken := h.taken + 1, eof := true), Got([]))
    else ReadRest(h.(taken := h.taken + 1, rest := down[h.taken]), n)
  }

  // --- Runs of one end against any peer and any user ---------------------------------------

  /** `popped` is what the session has taken, `received` what the head has accepted, `written`
      the bytes the user's writes were acknowledged for. */
  datatype History = History(
    opener: bool,
    s: Stream,
    popped: seq<StreamEvent>,
    received: seq<StreamEvent>,
    written: seq<byte>,
    emptyWrites: bool)

  datatype Op = Input(event: StreamEvent) | Poll | Write(buf: seq<byte>) | CloseUser | DropUser

  function Birth(opener: bool): History {
    History(opener, NewStream(opener), [], [], [], false)
  }

  function Step(r: History, op: Op): History {
    match op
    case Input(e) =>
      (match OnInput(r.s, e)
       case Ok(s) => r.(s := s, received := r.received + [e])
       case Err(_) => r)
    case Poll =>
      (match PollNext(r.s)
       case (s, Ready(e)) => r.(s := s, popped := r.popped + [e])
       case (s, _) => r.(s := s))
    case Write(buf) =>
      if r.s.upClosed then r
      else
        var n := if |buf| < CHUNK_CAPACITY then |buf| else CHUNK_CAPACITY;
        r.(s := WriteUp(r.s, buf), written := r.written + buf[..n], emptyWrites := r.emptyWrites || buf == [])
    case CloseUser => r.(s := CloseUp(r.s))
    case DropUser => r.(s := DropHandle(r.s))
  }

  /** What the layers below guarantee about inputs: a chunk is part of one transport read, and
      is empty only where the announced payload is. */
  predicate Legal(r: History, op: Op) {
    op.Input? && op.event.DataChunk? ==>
      && |op.event.chunk| <= READ_BUFFER
      && (op.event.chunk == [] ==> r.s.recvState == None || r.s.recvState == Some(0))
  }

  function Emitted(r: History): seq<Item> {
    Items(r.popped + r.s.outs)
  }

  function Received(r: History): seq<Item> {
    Items(r.received)
  }

  // --- Measures of an item sequence --------------------------------------------------------

  function OctetOf(i: Item): seq<byte> {
    if i.Octet? then [i.b] else []
  }

  function Bytes(xs: seq<Item>): seq<byte> {
    FlatMap(OctetOf, xs)
  }

  function DeltaOf(i: Item): nat {
    if i.Head? && i.event.WindowUpdate? then i.event.delta else 0
  }

  function Credit(xs: seq<Item>): nat {
    if xs == [] then 0 else Credit(xs[..|xs| - 1]) + DeltaOf(xs[|xs| - 1])
  }

  predicate IsData(i: Item) {
    i.Octet? || i.event.Data?
  }

  function FlagsOf(i: Item): Flags {
    if i.Octet? then NO_FLAGS
    else match i.event case Data(f, _) => f case WindowUpdate(f, _) => f case DataChunk(_) => NO_FLAGS
  }

  predicate HasFin(xs: seq<Item>) {
    exists i | 0 <= i < |xs| :: FlagsOf(xs[i]).fin
  }

  predicate HasRst(xs: seq<Item>) {
    exists i | 0 <= i < |xs| :: FlagsOf(xs[i]).rst
  }

  /** No data after a FIN. */
  predicate Quiet(xs: seq<Item>) {
    forall i, j | 0 <= i < j < |xs| && FlagsOf(xs[i]).fin :: !IsData(xs[j])
  }

  predicate Plain(i: Item) {
    match i
    case Octet(_) => true
    case Head(Data(f, size)) => f == NO_FLAGS && size > 0
    case Head(WindowUpdate(f, delta)) => (f == NO_FLAGS && delta <= MAX_DELTA) || (f == FIN && delta == 0)
    case Head(DataChunk(_)) => false
  }

  /** What this implementation sends on one stream: the opening window update, then plain data
      and window updates, and at most one FIN. */
  predicate Conforming(xs: seq<Item>, opener: bool) {
    && (xs != [] ==> xs[0] == Head(WindowUpdate(if opener then SYN else ACK, INITIAL_WINDOW)))
    && (forall i | 1 <= i < |xs| :: Plain(xs[i]))
    && (forall i, j | 0 <= i < j < |xs| :: !(FlagsOf(xs[i]).fin && FlagsOf(xs[j]).fin))
  }

  function Payload(e: StreamEvent): seq<byte> {
    if e.DataChunk? then e.chunk else []
  }

  function Delta(e: StreamEvent): nat {
    if e.WindowUpdate? then e.delta else 0
  }

  lemma {:induction false} CreditConcat(a: seq<Item>, b: seq<Item>)
    ensures Credit(a + b) == Credit(a) + Credit(b)
  {
    if b == [] {
      assert a + b == a;
    } else {
      var n := |b| - 1;
      assert (a + b)[..|a + b| - 1] == a + b[..n];
      CreditConcat(a, b[..n]);
    }
  }

  lemma {:induction false} OctetsMeasure(xs: seq<Item>, c: Chunk)
    requires |xs| == |c| && forall i | 0 <= i < |c| :: xs[i] == Octet(c[i])
    ensures Bytes(xs) == c && Credit(xs) == 0
  {
    if c == [] {
    } else {
      var n := |c| - 1;
      OctetsMeasure(xs[..n], c[..n]);
      assert c == c[..n] + [c[n]];
    }
  }

  lemma EventMeasure(e: StreamEvent)
    ensures Bytes(ItemsOf(e)) == Payload(e) && Credit(ItemsOf(e)) == Delta(e)
  {
    if e.DataChunk? {
      OctetsMeasure(ItemsOf(e), e.chunk);
    } else {
      FlatMapOne(OctetOf, Head(e));
      assert [Head(e)][..0] == [];
    }
  }

  lemma AppendEvent(es: seq<StreamEvent>, e: StreamEvent)
    ensures Items(es + [e]) == Items(es) + ItemsOf(e)
    ensures Bytes(Items(es + [e])) == Bytes(Items(es)) + Payload(e)
    ensures Credit(Items(es + [e])) == Credit(Items(es)) + Delta(e)
  {
    FlatMapConcat(ItemsOf, es, [e]);
    FlatMapOne(ItemsOf, e);
    FlatMapConcat(OctetOf, Items(es), ItemsOf(e));
    CreditConcat(Items(es), ItemsOf(e));
    EventMeasure(e);
  }
}
