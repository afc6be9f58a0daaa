/** What FrameReader and FrameWriter do, stated on values, against a byte-at-a-time reference
    parser that cannot see how the bytes were cut into segments. */
module Codec {
  import opened Wire

  // --- The reference parser ----------------------------------------------------------------

  datatype ScanState = Idle(header: seq<byte>) | Body(id: u32, remain: nat) | Bad(kind: byte)

  type Scanner = s: ScanState | (s.Idle? ==> |s.header| < HEADER_LEN) && (s.Body? ==> s.remain > 0)
    witness Idle([])

  function Expecting(id: u32, remain: nat): Scanner {
    if remain == 0 then Idle([]) else Body(id, remain)
  }

  function AfterFrame(f: Frame): Scanner {
    if f.StreamFrame? && f.event.Data? then Expecting(f.id, f.event.size) else Idle([])
  }

  /** The state after one more byte. */
  function Feed(s: Scanner, b: byte): Scanner {
    match s
    case Bad(_) => s
    case Body(id, remain) => Expecting(id, remain - 1)
    case Idle(header) =>
      if |header| + 1 < HEADER_LEN then Idle(header + [b])
      else
        match DecodeHeader(header + [b])
        case Err(kind) => Bad(kind)
        case Ok(h) => AfterFrame(FrameOf(h))
  }

  /** The tokens that byte completes. */
  function Yield(s: Scanner, b: byte): seq<Token> {
    match s
    case Bad(_) => []
    case Body(id, _) => [StreamToken(id, Octet(b))]
    case Idle(header) =>
      if |header| + 1 < HEADER_LEN || DecodeHeader(header + [b]).Err? then []
      else TokensOf(FrameOf(DecodeHeader(header + [b]).value))
  }

  function Scan(s: Scanner, bs: seq<byte>): Scanner {
    if bs == [] then s else Feed(Scan(s, bs[..|bs| - 1]), bs[|bs| - 1])
  }

  function Read(s: Scanner, bs: seq<byte>): seq<Token> {
    if bs == [] then []
    else Read(s, bs[..|bs| - 1]) + Yield(Scan(s, bs[..|bs| - 1]), bs[|bs| - 1])
  }

  lemma {:induction false} ScanConcat(s: Scanner, a: seq<byte>, b: seq<byte>)
    ensures Scan(s, a + b) == Scan(Scan(s, a), b)
    ensures Read(s, a + b) == Read(s, a) + Read(Scan(s, a), b)
  {
    hide DecodeHeader, Feed, Yield;
    if b == [] {
      assert a + b == a;
    } else {
      var n := |b| - 1;
      assert (a + b)[..|a + b| - 1] == a + b[..n];
      ScanConcat(s, a, b[..n]);
    }
  }

  lemma {:induction false} ScanBad(s: Scanner, bs: seq<byte>)
    requires s.Bad?
    ensures Scan(s, bs) == s && Read(s, bs) == []
  {
    if bs == [] {
    } else {
      ScanBad(s, bs[..|bs| - 1]);
    }
  }

  /** Scanning more bytes only adds tokens, and an unknown type is final. */
  lemma ScanPrefix(s: Scanner, a: seq<byte>, b: seq<byte>)
    requires a <= b
    ensures Read(s, a) <= Read(s, b)
    ensures Scan(s, a).Bad? ==> Scan(s, b) == Scan(s, a) && Read(s, b) == Read(s, a)
  {
    hide DecodeHeader, Feed, Yield;
    assert b == a + b[|a|..];
    ScanConcat(s, a, b[|a|..]);
    if Scan(s, a).Bad? {
      ScanBad(Scan(s, a), b[|a|..]);
    }
  }

  lemma FeedShort(header: seq<byte>, b: byte)
    requires |header| + 1 < HEADER_LEN
    ensures Feed(Idle(header), b) == Idle(header + [b]) && Yield(Idle(header), b) == []
  {
    hide DecodeHeader;
  }

  lemma {:induction false} ScanShort(bs: seq<byte>)
    requires |bs| < HEADER_LEN
    ensures Scan(Idle([]), bs) == Idle(bs) && Read(Idle([]), bs) == []
  {
    hide Feed, Yield;
    if bs == [] {
    } else {
      var front, last := bs[..|bs| - 1], bs[|bs| - 1];
      ScanShort(front);
      FeedShort(front, last);
      assert front + [last] == bs;
    }
  }

  lemma FeedLast(front: seq<byte>, last: byte)
    requires |front| == HEADER_LEN - 1
    ensures Feed(Idle(front), last)
         == match DecodeHeader(front + [last]) case Err(kind) => Bad(kind) case Ok(h) => AfterFrame(FrameOf(h))
    ensures Yield(Idle(front), last)
         == match DecodeHeader(front + [last]) case Err(_) => [] case Ok(h) => TokensOf(FrameOf(h))
  {
    hide DecodeHeader;
  }

  lemma ScanHeader(bs: seq<byte>)
    requires |bs| == HEADER_LEN
    ensures Scan(Idle([]), bs)
         == match DecodeHeader(bs) case Err(kind) => Bad(kind) case Ok(h) => AfterFrame(FrameOf(h))
    ensures Read(Idle([]), bs)
         == match DecodeHeader(bs) case Err(_) => [] case Ok(h) => TokensOf(FrameOf(h))
  {
    hide DecodeHeader, Feed, Yield;
    var front, last := bs[..HEADER_LEN - 1], bs[HEADER_LEN - 1];
    ScanShort(front);
    FeedLast(front, last);
    assert bs == front + [last];
    assert Read(Idle([]), bs) == [] + Yield(Idle(front), last);
  }

  lemma {:induction false} ScanBody(id: u32, remain: nat, bs: seq<byte>)
    requires |bs| <= remain
    ensures Scan(Expecting(id, remain), bs) == Expecting(id, remain - |bs|)
    ensures Read(Expecting(id, remain), bs) == TokensOf(StreamFrame(id, DataChunk(bs)))
  {
    hide DecodeHeader;
    if bs == [] {
    } else {
      var n := |bs| - 1;
      ScanBody(id, remain, bs[..n]);
    }
  }

  // --- FrameWriter -------------------------------------------------------------------------

  datatype Pending = Pending(id: u32, remain: nat)

  datatype WriterError = InvalidStreamId | ChunkTooLarge | UnexpectedFrameType

  function WriteFrame(p: Option<Pending>, f: Frame): Result<Option<Pending>, WriterError> {
    match p
    case Some(Pending(id, remain)) =>
      if !IsChunk(f) then Err(UnexpectedFrameType)
      else if f.id != id then Err(InvalidStreamId)
      else if |f.event.chunk| > remain then Err(ChunkTooLarge)
      else if remain == |f.event.chunk| then Ok(None)
      else Ok(Some(Pending(id, remain - |f.event.chunk|)))
    case None =>
      if f.StreamFrame? && f.event.Data? then Ok(Some(Pending(f.id, f.event.size)))
      else if IsChunk(f) then Err(UnexpectedFrameType)
      else Ok(None)
  }

  function WriteAll(p: Option<Pending>, fs: seq<Frame>): Result<Option<Pending>, WriterError> {
    if fs == [] then Ok(p)
    else
      match WriteAll(p, fs[..|fs| - 1])
      case Err(e) => Err(e)
      case Ok(q) => WriteFrame(q, fs[|fs| - 1])
  }

  /** Frames the writer accepts one after another, from a fresh writer. */
  predicate Accepted(fs: seq<Frame>) {
    WriteAll(None, fs).Ok?
  }

  // The same rules, said of the sequence as a whole.

  /** The payload bytes of some frames. */
  function PayloadSize(fs: seq<Frame>): nat {
    if fs == [] then 0
    else
      var f := fs[|fs| - 1];
      PayloadSize(fs[..|fs| - 1]) + if f.StreamFrame? && f.event.DataChunk? then |f.event.chunk| else 0
  }

  /** Only chunks of one stream. */
  predicate ChunksOf(fs: seq<Frame>, id: u32) {
    forall k | 0 <= k < |fs| :: fs[k].StreamFrame? && fs[k].event.DataChunk? && fs[k].id == id
  }

  /** How much of the payload frame `i` announces comes before frame `j`. */
  function Given(fs: seq<Frame>, i: nat, j: nat): nat
    requires i < j <= |fs|
  {
    PayloadSize(fs[i + 1..j])
  }

  predicate OnlyIts(fs: seq<Frame>, i: nat, j: nat)
    requires i < j <= |fs| && fs[i].StreamFrame?
  {
    ChunksOf(fs[i + 1..j], fs[i].id)
  }

  /** After the first `j` frames, frame `i` is a data header whose payload is not finished; even an
      empty payload is unfinished until a chunk has come. */
  predicate Unfinished(fs: seq<Frame>, i: nat, j: nat)
    requires i < j <= |fs|
  {
    && fs[i].StreamFrame? && fs[i].event.Data? && OnlyIts(fs, i, j)
    && (j == i + 1 || Given(fs, i, j) < fs[i].event.size)
  }

  /** A chunk belongs to an unfinished payload of its stream and fits into what is left of it; any
      other frame finds none unfinished. */
  predicate InSequence(fs: seq<Frame>, j: nat)
    requires j < |fs|
  {
    if fs[j].StreamFrame? && fs[j].event.DataChunk? then
      exists i | 0 <= i < j ::
        && Unfinished(fs, i, j) && fs[i].id == fs[j].id
        && Given(fs, i, j) + |fs[j].event.chunk| <= fs[i].event.size
    else forall i | 0 <= i < j :: !Unfinished(fs, i, j)
  }

  /** The writer's state says which payload is unfinished, and how much of it is left. */
  predicate Says(p: Option<Pending>, fs: seq<Frame>, j: nat)
    requires j <= |fs|
  {
    match p
    case None => forall i | 0 <= i < j :: !Unfinished(fs, i, j)
    case Some(Pending(id, remain)) =>
      exists i | 0 <= i < j ::
        Unfinished(fs, i, j) && fs[i].id == id && fs[i].event.size == Given(fs, i, j) + remain
  }

  lemma ChunksMore(fs: seq<Frame>, f: Frame, id: u32)
    ensures ChunksOf(fs + [f], id) <==> ChunksOf(fs, id) && f.StreamFrame? && f.event.DataChunk? && f.id == id
    ensures PayloadSize(fs + [f])
         == PayloadSize(fs) + if f.StreamFrame? && f.event.DataChunk? then |f.event.chunk| else 0
  {
    var all := fs + [f];
    assert all[|fs|] == f && all[..|fs|] == fs && forall k | 0 <= k < |fs| :: all[k] == fs[k];
  }

  /** A payload is unfinished if it was before and the last frame is a chunk that does not finish it. */
  lemma StillUnfinished(fs: seq<Frame>, i: nat, n: nat)
    requires i < n < |fs|
    ensures Unfinished(fs, i, n + 1) <==>
              && Unfinished(fs, i, n) && fs[n].StreamFrame? && fs[n].event.DataChunk? && fs[n].id == fs[i].id
              && Given(fs, i, n) + |fs[n].event.chunk| < fs[i].event.size
    ensures fs[n].StreamFrame? && fs[n].event.DataChunk? ==>
              Given(fs, i, n + 1) == Given(fs, i, n) + |fs[n].event.chunk|
  {
    hide PayloadSize, ChunksOf;
    assert fs[i + 1..n + 1] == fs[i + 1..n] + [fs[n]];
    ChunksMore(fs[i + 1..n], fs[n], if fs[i].StreamFrame? then fs[i].id else 0);
  }

  lemma Begun(fs: seq<Frame>, n: nat)
    requires n < |fs|
    ensures Given(fs, n, n + 1) == 0
    ensures Unfinished(fs, n, n + 1) <==> fs[n].StreamFrame? && fs[n].event.Data?
  {
    assert fs[n + 1..n + 1] == [];
  }

  lemma OnlyChunksAfter(fs: seq<Frame>, i: nat, k: nat, n: nat)
    requires i < k < n <= |fs| && Unfinished(fs, i, n)
    ensures !Unfinished(fs, k, n)
  {
    assert fs[i + 1..n][k - i - 1] == fs[k];
  }

  lemma OneSays(q: Option<Pending>, fs: seq<Frame>, n: nat)
    requires n < |fs| && Says(q, fs, n)
    ensures WriteFrame(q, fs[n]).Ok? <==> InSequence(fs, n)
    ensures WriteFrame(q, fs[n]).Ok? ==> Says(WriteFrame(q, fs[n]).value, fs, n + 1)
  {
    hide Given, OnlyIts;
    Begun(fs, n);
    forall i | 0 <= i < n
      ensures Unfinished(fs, i, n + 1) <==>
                && Unfinished(fs, i, n) && fs[n].StreamFrame? && fs[n].event.DataChunk? && fs[n].id == fs[i].id
                && Given(fs, i, n) + |fs[n].event.chunk| < fs[i].event.size
      ensures fs[n].StreamFrame? && fs[n].event.DataChunk? ==>
                Given(fs, i, n + 1) == Given(fs, i, n) + |fs[n].event.chunk|
    {
      StillUnfinished(fs, i, n);
    }
    if q.Some? {
      var k :| 0 <= k < n && Unfinished(fs, k, n) && fs[k].id == q.value.id
               && fs[k].event.size == Given(fs, k, n) + q.value.remain;
      forall i | 0 <= i < n && i != k ensures !Unfinished(fs, i, n) {
        if k < i {
          OnlyChunksAfter(fs, k, i, n);
        } else if Unfinished(fs, i, n) {
          OnlyChunksAfter(fs, i, k, n);
        }
      }
    }
  }

  lemma {:induction false} WriterSays(fs: seq<Frame>, n: nat)
    requires n <= |fs|
    ensures WriteAll(None, fs[..n]).Ok? <==> forall j | 0 <= j < n :: InSequence(fs, j)
    ensures WriteAll(None, fs[..n]).Ok? ==> Says(WriteAll(None, fs[..n]).value, fs, n)
  {
    hide InSequence, Unfinished;
    if n == 0 {
    } else {
      WriterSays(fs, n - 1);
      assert fs[..n][..n - 1] == fs[..n - 1];
      if WriteAll(None, fs[..n - 1]).Ok? {
        OneSays(WriteAll(None, fs[..n - 1]).value, fs, n - 1);
      }
    }
  }

  /** The checking writer accepts exactly the sequences in which every frame is in its place. */
  lemma AcceptedExactly(fs: seq<Frame>)
    ensures Accepted(fs) <==> forall j | 0 <= j < |fs| :: InSequence(fs, j)
  {
    hide InSequence, WriteAll;
    WriterSays(fs, |fs|);
    assert fs[..|fs|] == fs;
  }

  function StateOf(p: Option<Pending>): Scanner {
    match p
    case None => Idle([])
    case Some(Pending(id, remain)) => Expecting(id, remain)
  }

  lemma {:induction false} WriteAllConcat(p: Option<Pending>, a: seq<Frame>, b: seq<Frame>)
    ensures WriteAll(p, a + b)
         == match WriteAll(p, a) case Err(e) => Err(e) case Ok(q) => WriteAll(q, b)
  {
    if b == [] {
      assert a + b == a;
    } else {
      var n := |b| - 1;
      assert (a + b)[..|a + b| - 1] == a + b[..n];
      WriteAllConcat(p, a, b[..n]);
    }
  }

  lemma ScanFrame(p: Option<Pending>, f: Frame)
    requires WriteFrame(p, f).Ok?
    ensures Scan(StateOf(p), Encode(f)) == StateOf(WriteFrame(p, f).value)
    ensures Read(StateOf(p), Encode(f)) == TokensOf(f)
  {
    if p.Some? {
      ScanBody(p.value.id, p.value.remain, f.event.chunk);
    } else {
      FrameRoundTrip(f);
      ScanHeader(Encode(f));
    }
  }

  /** Whatever the writer accepts, the reference parser reads back, leaving it in the state
      the writer is in. */
  lemma {:induction false} ScanEncoded(fs: seq<Frame>)
    requires Accepted(fs)
    ensures Scan(Idle([]), EncodeAll(fs)) == StateOf(WriteAll(None, fs).value)
    ensures Read(Idle([]), EncodeAll(fs)) == Tokens(fs)
  {
    hide DecodeHeader, EncodeHeader, Feed, Yield;
    if fs == [] {
    } else {
      var n := |fs| - 1;
      ScanEncoded(fs[..n]);
      var p := WriteAll(None, fs[..n]).value;
      ScanFrame(p, fs[n]);
      ScanConcat(Idle([]), EncodeAll(fs[..n]), Encode(fs[n]));
    }
  }

  // --- FrameReader -------------------------------------------------------------------------

  /** The reader's buffer is a queue of segments, of which the front one may be partly used. */
  datatype Reader = Reader(segments: seq<Chunk>, pending: Option<Pending>)

  const NEW_READER := Reader([], None)

  datatype Next = Parsed(frame: Frame) | NeedMore | UnknownType(kind: byte)

  function DropBytes(cs: seq<Chunk>, n: nat): seq<Chunk> {
    if n == 0 || cs == [] then cs
    else if n < |cs[0]| then [cs[0][n..]] + cs[1..]
    else DropBytes(cs[1..], n - |cs[0]|)
  }

  function NextFrame(r: Reader): (Reader, Next) {
    match r.pending
    case Some(Pending(id, remain)) =>
      if r.segments == [] then (r, NeedMore)
      else
        var n := if remain < |r.segments[0]| then remain else |r.segments[0]|;
        var left := if remain == n then None else Some(Pending(id, remain - n));
        (Reader(DropBytes(r.segments, n), left), Parsed(StreamFrame(id, DataChunk(r.segments[0][..n]))))
    case None =>
      if |Flat(r.segments)| < HEADER_LEN then (r, NeedMore)
      else
        var rest := DropBytes(r.segments, HEADER_LEN);
        match DecodeHeader(Flat(r.segments)[..HEADER_LEN])
        case Err(kind) => (Reader(rest, None), UnknownType(kind))
        case Ok(h) =>
          var f := FrameOf(h);
          var p := if f.StreamFrame? && f.event.Data? then Some(Pending(f.id, f.event.size)) else None;
          (Reader(rest, p), Parsed(f))
  }

  lemma {:induction false} DropBytesFlat(cs: seq<Chunk>, n: nat)
    requires n <= |Flat(cs)|
    ensures Flat(DropBytes(cs, n)) == Flat(cs)[n..]
    ensures NonEmpty(cs) ==> NonEmpty(DropBytes(cs, n))
  {
    if n == 0 || cs == [] {
    } else {
      assert cs == [cs[0]] + cs[1..];
      FlatCons(cs[0], cs[1..]);
      if n < |cs[0]| {
        FlatCons(cs[0][n..], cs[1..]);
        assert DropBytes(cs, n) == [cs[0][n..]] + cs[1..];
        assert Flat(cs)[n..] == cs[0][n..] + Flat(cs[1..]);
      } else {
        DropBytesFlat(cs[1..], n - |cs[0]|);
      }
    }
  }

  /** The bytes `NextFrame` takes out of the buffer. */
  function Consumed(r: Reader): seq<byte> {
    var before, after := Flat(r.segments), Flat(NextFrame(r).0.segments);
    if |after| <= |before| then before[..|before| - |after|] else []
  }

  lemma FrontChunk(cs: seq<Chunk>)
    requires cs != []
    ensures cs[0] <= Flat(cs)
  {
    assert cs == [cs[0]] + cs[1..];
    FlatCons(cs[0], cs[1..]);
  }

  lemma NeedMoreScans(r: Reader)
    requires NextFrame(r).1.NeedMore?
    ensures NextFrame(r).0 == r
    ensures Read(StateOf(r.pending), Flat(r.segments)) == []
    ensures !Scan(StateOf(r.pending), Flat(r.segments)).Bad?
  {
    hide DecodeHeader, Feed, Yield;
    if r.pending.None? {
      ScanShort(Flat(r.segments));
    } else {
      assert Flat(r.segments) == [];
    }
  }

  /** Within a payload a chunk is as long as the front segment and the rest of the payload allow. */
  lemma LongestChunk(r: Reader)
    requires r.pending.Some?
    ensures var ((after, next), Pending(id, remain)) := (NextFrame(r), r.pending.value);
            && (next.NeedMore? <==> r.segments == [])
            && (r.segments != [] ==>
                  && next.Parsed? && next.frame.StreamFrame? && next.frame.id == id && next.frame.event.DataChunk?
                  && var c := next.frame.event.chunk;
                     && c <= r.segments[0] && |c| <= remain && (|c| == |r.segments[0]| || |c| == remain)
                     && after.pending == if |c| == remain then None else Some(Pending(id, remain - |c|)))
  {
  }

  lemma ChunkScans(r: Reader)
    requires NonEmpty(r.segments) && r.pending.Some? && !NextFrame(r).1.NeedMore?
    ensures var (after, next) := NextFrame(r);
            && Flat(r.segments) == Consumed(r) + Flat(after.segments) && NonEmpty(after.segments)
            && next.Parsed? && next.frame.StreamFrame? && next.frame.event == DataChunk(Consumed(r))
            && |Consumed(r)| <= r.pending.value.remain
  {
    hide DecodeHeader;
    FrontChunk(r.segments);
    DropBytesFlat(r.segments, |NextFrame(r).1.frame.event.chunk|);
  }

  lemma HeaderScans(r: Reader)
    requires NonEmpty(r.segments) && r.pending.None? && !NextFrame(r).1.NeedMore?
    ensures var (after, next) := NextFrame(r);
            && Flat(r.segments) == Consumed(r) + Flat(after.segments) && NonEmpty(after.segments)
            && Consumed(r) == Flat(r.segments)[..HEADER_LEN]
  {
    hide DecodeHeader;
    DropBytesFlat(r.segments, HEADER_LEN);
  }

  /** One call of `NextFrame` against the reference parser, whatever the segments. */
  lemma NextFrameScans(r: Reader)
    requires NonEmpty(r.segments) && !NextFrame(r).1.NeedMore?
    ensures var (after, next) := NextFrame(r);
            && Flat(r.segments) == Consumed(r) + Flat(after.segments)
            && NonEmpty(after.segments)
            && (next.Parsed? ==>
                && Scan(StateOf(r.pending), Consumed(r)) == StateOf(after.pending)
                && Read(StateOf(r.pending), Consumed(r)) == TokensOf(next.frame))
            && (next.UnknownType? ==>
                && r.pending.None? && |Consumed(r)| == HEADER_LEN
                && Scan(Idle([]), Consumed(r)) == Bad(next.kind) && Read(Idle([]), Consumed(r)) == [])
  {
    hide DecodeHeader, Feed, Yield, Scan, Read, Flat, DropBytes;
    if r.pending.Some? {
      ChunkScans(r);
      ScanBody(r.pending.value.id, r.pending.value.remain, Consumed(r));
    } else {
      HeaderScans(r);
      ScanHeader(Consumed(r));
    }
  }

  /** Every frame uses up bytes, or else the payload that announced none. */
  lemma NextFrameShrinks(r: Reader)
    requires NonEmpty(r.segments) && NextFrame(r).1.Parsed?
    ensures var after := NextFrame(r).0;
            || |Flat(after.segments)| < |Flat(r.segments)|
            || (|Flat(after.segments)| == |Flat(r.segments)| && r.pending.Some? && after.pending.None?)
  {
    hide DecodeHeader, Flat, DropBytes;
    if r.pending.Some? {
      ChunkScans(r);
    } else {
      HeaderScans(r);
    }
  }

  // --- Whole runs of a reader --------------------------------------------------------------

  datatype Op = Push(segment: Chunk) | Next

  /** A run stops reading at the first error. */
  datatype Run = Run(reader: Reader, outputs: seq<Frame>, error: Option<byte>)

  function Step(run: Run, op: Op): Run {
    match op
    case Push(c) => run.(reader := run.reader.(segments := run.reader.segments + [c]))
    case Next =>
      if run.error.Some? then run
      else
        match NextFrame(run.reader)
        case (after, Parsed(f)) => Run(after, run.outputs + [f], None)
        case (after, NeedMore) => Run(after, run.outputs, None)
        case (after, UnknownType(kind)) => Run(after, run.outputs, Some(kind))
  }

  function Execute(ops: seq<Op>): Run {
    if ops == [] then Run(NEW_READER, [], None) else Step(Execute(ops[..|ops| - 1]), ops[|ops| - 1])
  }

  function Segment(op: Op): seq<byte> {
    if op.Push? then op.segment else []
  }

  function Pushed(ops: seq<Op>): seq<byte> {
    FlatMap(Segment, ops)
  }

  /** Segments as a network delivers them: cut anywhere, never empty. */
  predicate Segments(ops: seq<Op>) {
    forall op | op in ops :: op.Push? ==> op.segment != []
  }

  /** Nothing more to get out of the bytes pushed so far. */
  predicate Settled(run: Run) {
    run.error.Some? || NextFrame(run.reader).1.NeedMore?
  }

  function Outcome(run: Run): Scanner {
    if run.error.Some? then Bad(run.error.value) else StateOf(run.reader.pending)
  }

  /** The run has used up `used`, keeps the rest of `pushed`, and returned what the reference
      parser makes of `used`; an error came with the very last byte of `used`. */
  ghost predicate Tracks(run: Run, pushed: seq<byte>, used: seq<byte>) {
    && pushed == used + Flat(run.reader.segments)
    && NonEmpty(run.reader.segments)
    && Scan(Idle([]), used) == Outcome(run) && Read(Idle([]), used) == Tokens(run.outputs)
    && (run.error.Some? ==> used != [] && !Scan(Idle([]), used[..|used| - 1]).Bad?)
  }

  lemma PushTracks(run: Run, pushed: seq<byte>, used: seq<byte>, c: Chunk)
    requires Tracks(run, pushed, used) && c != []
    ensures Tracks(Step(run, Push(c)), pushed + c, used)
  {
    hide DecodeHeader, Feed, Yield, Scan, Read;
    FlatSnoc(run.reader.segments, c);
    assert pushed + c == used + (Flat(run.reader.segments) + c);
  }

  lemma Regroup(a: seq<byte>, b: seq<byte>, c: seq<byte>)
    ensures a + (b + c) == (a + b) + c
  {
  }

  lemma ScansFurther(run: Run, run': Run, used: seq<byte>, c: seq<byte>)
    requires Scan(Idle([]), used) == Outcome(run) && Read(Idle([]), used) == Tokens(run.outputs)
    requires Scan(Outcome(run), c) == Outcome(run')
    requires Tokens(run'.outputs) == Tokens(run.outputs) + Read(Outcome(run), c)
    ensures Scan(Idle([]), used + c) == Outcome(run') && Read(Idle([]), used + c) == Tokens(run'.outputs)
  {
    hide Scan, Read, FlatMap, Feed, Yield;
    ScanConcat(Idle([]), used, c);
  }

  lemma NoErrorBefore(run: Run, used: seq<byte>, c: seq<byte>)
    requires Scan(Idle([]), used) == Outcome(run)
    requires c != [] && !Scan(Outcome(run), c[..|c| - 1]).Bad?
    ensures used + c != [] && !Scan(Idle([]), (used + c)[..|used + c| - 1]).Bad?
  {
    hide Scan, Read, FlatMap, Feed, Yield;
    ScanConcat(Idle([]), used, c[..|c| - 1]);
    assert (used + c)[..|used + c| - 1] == used + c[..|c| - 1];
  }

  lemma TracksFurther(run: Run, run': Run, pushed: seq<byte>, used: seq<byte>, c: seq<byte>)
    requires Tracks(run, pushed, used)
    requires Flat(run.reader.segments) == c + Flat(run'.reader.segments) && NonEmpty(run'.reader.segments)
    requires Scan(Outcome(run), c) == Outcome(run')
    requires Tokens(run'.outputs) == Tokens(run.outputs) + Read(Outcome(run), c)
    requires run'.error.Some? ==> c != [] && !Scan(Outcome(run), c[..|c| - 1]).Bad?
    ensures Tracks(run', pushed, used + c)
  {
    hide Scan, Read, FlatMap, Feed, Yield, Outcome, Flat, Tokens, NonEmpty;
    ScansFurther(run, run', used, c);
    Regroup(used, c, Flat(run'.reader.segments));
    if run'.error.Some? {
      NoErrorBefore(run, used, c);
    }
  }

  lemma NextTracks(run: Run, pushed: seq<byte>, used: seq<byte>)
    requires Tracks(run, pushed, used) && run.error.None? && !NextFrame(run.reader).1.NeedMore?
    ensures Tracks(Step(run, Next), pushed, used + Consumed(run.reader))
  {
    hide DecodeHeader, Feed, Yield, Scan, Read;
    NextFrameScans(run.reader);
    var next := NextFrame(run.reader).1;
    var c := Consumed(run.reader);
    if next.UnknownType? {
      ScanShort(c[..|c| - 1]);
    } else {
      TokensSnoc(run.outputs, next.frame);
    }
    TracksFurther(run, Step(run, Next), pushed, used, c);
  }

  lemma StepTracks(run: Run, pushed: seq<byte>, used: seq<byte>, op: Op) returns (used': seq<byte>)
    requires Tracks(run, pushed, used)
    requires op.Push? ==> op.segment != []
    ensures Tracks(Step(run, op), pushed + Segment(op), used')
  {
    hide DecodeHeader, Feed, Yield, Scan, Read;
    used' := used;
    assert pushed + [] == pushed;
    if op.Push? {
      PushTracks(run, pushed, used, op.segment);
    } else if run.error.None? && !NextFrame(run.reader).1.NeedMore? {
      NextTracks(run, pushed, used);
      used' := used + Consumed(run.reader);
    } else if run.error.None? {
      NeedMoreScans(run.reader);
    }
  }

  lemma {:induction false} ExecuteTracks(ops: seq<Op>) returns (used: seq<byte>)
    requires Segments(ops)
    ensures Tracks(Execute(ops), Pushed(ops), used)
  {
    if ops == [] {
      used := [];
    } else {
      var n := |ops| - 1;
      var before := ExecuteTracks(ops[..n]);
      used := StepTracks(Execute(ops[..n]), Pushed(ops[..n]), before, ops[n]);
    }
  }

  /** Byte conservation on arbitrary input: at every moment the pushed bytes are those the
      outputs came from, in order, followed by the unread ones. */
  lemma ParseConserves(ops: seq<Op>)
    requires Segments(ops)
    ensures var run := Execute(ops);
            var unread := Flat(run.reader.segments);
            && |unread| <= |Pushed(ops)|
            && var used := Pushed(ops)[..|Pushed(ops)| - |unread|];
            && Pushed(ops) == used + unread
            && Scan(Idle([]), used) == Outcome(run) && Read(Idle([]), used) == Tokens(run.outputs)
  {
    var used := ExecuteTracks(ops);
    assert used == Pushed(ops)[..|Pushed(ops)| - |Flat(Execute(ops).reader.segments)|];
  }

  lemma SettledScan(run: Run, pushed: seq<byte>, used: seq<byte>)
    requires Tracks(run, pushed, used) && Settled(run)
    ensures Read(Idle([]), pushed) == Tokens(run.outputs)
    ensures run.error.None? ==> !Scan(Idle([]), pushed).Bad?
    ensures run.error.Some? ==> Scan(Idle([]), pushed) == Bad(run.error.value)
  {
    hide Feed, Yield, Scan, Read;
    if run.error.Some? {
      ScanPrefix(Idle([]), used, pushed);
    } else {
      NeedMoreScans(run.reader);
      ScanConcat(Idle([]), used, Flat(run.reader.segments));
    }
  }

  lemma SameOffset(run: Run, run': Run, pushed: seq<byte>, used: seq<byte>, used': seq<byte>)
    requires Tracks(run, pushed, used) && Tracks(run', pushed, used')
    requires run.error.Some? && run'.error.Some?
    ensures |used| <= |used'|
  {
    hide Feed, Yield, Scan, Read;
    if |used'| < |used| {
      assert used' == pushed[..|used'|] == used[..|used'|];
      assert used' <= used[..|used| - 1];
      ScanPrefix(Idle([]), used', used[..|used| - 1]);
    }
  }

  /** Parse confluence on arbitrary input: however the same bytes were cut, and however reading
      was interleaved with arrival, two settled runs returned the same tokens, met the same
      error or none, and met it at the same offset. */
  lemma ParseConfluence(ops: seq<Op>, ops': seq<Op>)
    requires Segments(ops) && Segments(ops') && Pushed(ops) == Pushed(ops')
    requires Settled(Execute(ops)) && Settled(Execute(ops'))
    ensures var (run, run') := (Execute(ops), Execute(ops'));
            && Tokens(run.outputs) == Tokens(run'.outputs)
            && run.error == run'.error
            && (run.error.Some? ==> |Flat(run.reader.segments)| == |Flat(run'.reader.segments)|)
  {
    var used := ExecuteTracks(ops);
    var used' := ExecuteTracks(ops');
    SettledScan(Execute(ops), Pushed(ops), used);
    SettledScan(Execute(ops'), Pushed(ops'), used');
    if Execute(ops).error.Some? {
      SameOffset(Execute(ops), Execute(ops'), Pushed(ops), used, used');
      SameOffset(Execute(ops'), Execute(ops), Pushed(ops), used', used);
    }
  }

  /** The round trip does not depend on segmentation: from any frames the writer accepts, a
      reader fed any cut of any prefix of the encoding, read at any moments, never errs and has
      returned a prefix of them; and once everything is pushed and read, all of them. */
  lemma RoundTrip(fs: seq<Frame>, ops: seq<Op>)
    requires Accepted(fs) && Segments(ops) && Pushed(ops) <= EncodeAll(fs)
    ensures Execute(ops).error.None?
    ensures Tokens(Execute(ops).outputs) <= Tokens(fs)
    ensures Pushed(ops) == EncodeAll(fs) && Settled(Execute(ops)) ==> Tokens(Execute(ops).outputs) == Tokens(fs)
  {
    var used := ExecuteTracks(ops);
    ScanEncoded(fs);
    ScanPrefix(Idle([]), used, EncodeAll(fs));
    if Settled(Execute(ops)) {
      SettledScan(Execute(ops), Pushed(ops), used);
    }
  }
}
