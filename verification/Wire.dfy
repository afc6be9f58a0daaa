/** The wire format: flags, headers, frames, and the token view of a frame sequence. */
module Wire {

  type byte = x: int | 0 <= x < 0x100
  type u16 = x: int | 0 <= x < 0x1_0000
  type u32 = x: int | 0 <= x < 0x1_0000_0000

  type Chunk = seq<byte>

  datatype Option<+T> = None | Some(value: T)
  datatype Result<+T, +E> = Ok(value: T) | Err(error: E)

  const HEADER_LEN: nat := 12
  const CHUNK_CAPACITY: nat := 4090
  const READ_BUFFER: nat := 4096

  /** Concatenation of the images, in order; defined from the back because logs grow there. */
  function FlatMap<A, B>(f: A -> seq<B>, xs: seq<A>): seq<B> {
    if xs == [] then [] else FlatMap(f, xs[..|xs| - 1]) + f(xs[|xs| - 1])
  }

  lemma {:induction false} FlatMapConcat<A, B>(f: A -> seq<B>, xs: seq<A>, ys: seq<A>)
    ensures FlatMap(f, xs + ys) == FlatMap(f, xs) + FlatMap(f, ys)
  {
    if ys == [] {
      assert xs + ys == xs;
    } else {
      var n := |ys| - 1;
      assert (xs + ys)[..|xs + ys| - 1] == xs + ys[..n];
      FlatMapConcat(f, xs, ys[..n]);
    }
  }

  lemma FlatMapOne<A, B>(f: A -> seq<B>, x: A)
    ensures FlatMap(f, [x]) == f(x)
  {
    assert [x][..0] == [];
    assert FlatMap(f, []) + f(x) == f(x);
  }

  // --- Chunk sequences ---------------------------------------------------------------------

  function Flat(cs: seq<Chunk>): seq<byte> {
    FlatMap((c: Chunk) => c, cs)
  }

  predicate NonEmpty(cs: seq<Chunk>) {
    forall i | 0 <= i < |cs| :: |cs[i]| > 0
  }

  lemma FlatCons(c: Chunk, cs: seq<Chunk>)
    ensures Flat([c] + cs) == c + Flat(cs)
  {
    FlatMapConcat((c: Chunk) => c, [c], cs);
    FlatMapOne((c: Chunk) => c, c);
  }

  lemma FlatSnoc(cs: seq<Chunk>, c: Chunk)
    ensures Flat(cs + [c]) == Flat(cs) + c
  {
    FlatMapConcat((c: Chunk) => c, cs, [c]);
    FlatMapOne((c: Chunk) => c, c);
  }

  // --- Flags -------------------------------------------------------------------------------

  datatype Flags = Flags(syn: bool, ack: bool, fin: bool, rst: bool)

  const NO_FLAGS := Flags(false, false, false, false)
  const SYN := Flags(true, false, false, false)
  const ACK := Flags(false, true, false, false)
  const FIN := Flags(false, false, true, false)

  function Bit(b: bool): u16 {
    if b then 1 else 0
  }

  function FlagsBits(f: Flags): u16 {
    Bit(f.syn) + 2 * Bit(f.ack) + 4 * Bit(f.fin) + 8 * Bit(f.rst)
  }

  function FlagsFromBits(bits: u16): Flags {
    Flags(bits % 2 == 1, bits / 2 % 2 == 1, bits / 4 % 2 == 1, bits / 8 % 2 == 1)
  }

  // --- Headers -----------------------------------------------------------------------------

  datatype FrameType = DataType | WindowUpdateType | PingType | GoAwayType

  function TypeCode(t: FrameType): byte {
    match t
    case DataType => 0
    case WindowUpdateType => 1
    case PingType => 2
    case GoAwayType => 3
  }

  /** The error is `UnknownType` with the offending byte. */
  function TypeFromCode(b: byte): Result<FrameType, byte> {
    match b
    case 0 => Ok(DataType)
    case 1 => Ok(WindowUpdateType)
    case 2 => Ok(PingType)
    case 3 => Ok(GoAwayType)
    case _ => Err(b)
  }

  datatype Header = Header(version: byte, kind: FrameType, flags: Flags, id: u32, length: u32)

  function U16Bytes(v: u16): seq<byte> {
    [v / 0x100, v % 0x100]
  }

  function U32Bytes(v: u32): seq<byte> {
    [v / 0x100_0000, v / 0x1_0000 % 0x100, v / 0x100 % 0x100, v % 0x100]
  }

  function U16FromBytes(b: seq<byte>): u16
    requires |b| == 2
  {
    var hi: int, lo: int := b[0], b[1];
    hi * 0x100 + lo
  }

  function U32FromBytes(b: seq<byte>): u32
    requires |b| == 4
  {
    var b0: int, b1: int, b2: int, b3: int := b[0], b[1], b[2], b[3];
    b0 * 0x100_0000 + b1 * 0x1_0000 + b2 * 0x100 + b3
  }

  function EncodeHeader(h: Header): (b: seq<byte>)
    ensures |b| == HEADER_LEN
  {
    [h.version, TypeCode(h.kind)] + U16Bytes(FlagsBits(h.flags)) + U32Bytes(h.id) + U32Bytes(h.length)
  }

  function DecodeHeader(b: seq<byte>): Result<Header, byte>
    requires |b| == HEADER_LEN
  {
    match TypeFromCode(b[1])
    case Err(e) => Err(e)
    case Ok(t) =>
      Ok(Header(b[0], t, FlagsFromBits(U16FromBytes(b[2..4])), U32FromBytes(b[4..8]), U32FromBytes(b[8..12])))
  }

  lemma FlagsRoundTrip(f: Flags)
    ensures FlagsFromBits(FlagsBits(f)) == f
  {
  }

  lemma IntegerRoundTrip(v: u16, w: u32)
    ensures U16FromBytes(U16Bytes(v)) == v && U32FromBytes(U32Bytes(w)) == w
  {
    var b := U32Bytes(w);
    var b0: int, b1: int, b2: int := b[0], b[1], b[2];
    assert w / 0x1_0000 == b0 * 0x100 + b1;
    assert w / 0x100 == b0 * 0x1_0000 + b1 * 0x100 + b2;
  }

  lemma U32BytesRoundTrip(b: seq<byte>)
    requires |b| == 4
    ensures U32Bytes(U32FromBytes(b)) == b
  {
    var b0: int, b1: int, b2: int, b3: int := b[0], b[1], b[2], b[3];
    var v := U32FromBytes(b);
    assert v / 0x100 == b0 * 0x1_0000 + b1 * 0x100 + b2;
    assert v / 0x1_0000 == b0 * 0x100 + b1;
  }

  lemma EncodedFields(h: Header)
    ensures var b := EncodeHeader(h);
            && b[0] == h.version && b[1] == TypeCode(h.kind)
            && b[2..4] == U16Bytes(FlagsBits(h.flags))
            && b[4..8] == U32Bytes(h.id)
            && b[8..12] == U32Bytes(h.length)
  {
  }

  lemma HeaderRoundTrip(h: Header)
    ensures DecodeHeader(EncodeHeader(h)) == Ok(h)
  {
    EncodedFields(h);
    FlagsRoundTrip(h.flags);
    IntegerRoundTrip(FlagsBits(h.flags), h.id);
    IntegerRoundTrip(FlagsBits(h.flags), h.length);
  }

  lemma FlagsCanonical(v: u16)
    ensures FlagsBits(FlagsFromBits(v)) == v % 16
  {
    var half, quarter, eighth := v / 2, v / 4, v / 8;
    assert quarter == half / 2 && eighth == quarter / 2 && v / 16 == eighth / 2;
    assert Bit(FlagsFromBits(v).syn) == v - 2 * half;
    assert Bit(FlagsFromBits(v).ack) == half - 2 * quarter;
    assert Bit(FlagsFromBits(v).fin) == quarter - 2 * eighth;
    assert Bit(FlagsFromBits(v).rst) == eighth - 2 * (v / 16);
  }

  lemma LowFlagBits(b: seq<byte>)
    requires |b| == 2
    ensures U16Bytes(U16FromBytes(b) % 16) == b <==> b[0] == 0 && b[1] < 16
  {
    var hi: int, lo: int := b[0], b[1];
    assert (hi * 0x100 + lo) % 16 == lo % 16;
  }

  /** The other direction: re-encoding a parsed header gives the same bytes exactly when the
      twelve undefined flag bits are zero. */
  lemma HeaderCanonical(b: seq<byte>)
    requires |b| == HEADER_LEN && DecodeHeader(b).Ok?
    ensures EncodeHeader(DecodeHeader(b).value) == b <==> b[2] == 0 && b[3] < 16
  {
    var h := DecodeHeader(b).value;
    var e := EncodeHeader(h);
    EncodedFields(h);
    var bits := U16FromBytes(b[2..4]);
    FlagsCanonical(bits);
    U32BytesRoundTrip(b[4..8]);
    U32BytesRoundTrip(b[8..12]);
    assert e[..2] == b[..2];
    LowFlagBits(b[2..4]);
    assert e == e[..2] + e[2..4] + e[4..8] + e[8..12];
    assert b == b[..2] + b[2..4] + b[4..8] + b[8..12];
  }

  // --- Frames ------------------------------------------------------------------------------

  datatype StreamEvent =
    | Data(flags: Flags, size: u32)
    | DataChunk(chunk: Chunk)
    | WindowUpdate(flags: Flags, delta: u32)

  datatype SessionEvent = Ping(pingFlags: Flags, code: u32) | GoAway(code: u32)

  datatype Frame = SessionFrame(control: SessionEvent) | StreamFrame(id: u32, event: StreamEvent)

  predicate IsChunk(f: Frame) {
    f.StreamFrame? && f.event.DataChunk?
  }

  /** The header that announces a frame other than a payload chunk. */
  function HeaderOf(f: Frame): Header
    requires !IsChunk(f)
  {
    match f
    case SessionFrame(Ping(flags, code)) => Header(0, PingType, flags, 0, code)
    case SessionFrame(GoAway(code)) => Header(0, GoAwayType, NO_FLAGS, 0, code)
    case StreamFrame(id, Data(flags, size)) => Header(0, DataType, flags, id, size)
    case StreamFrame(id, WindowUpdate(flags, delta)) => Header(0, WindowUpdateType, flags, id, delta)
  }

  function FrameOf(h: Header): (f: Frame)
    ensures !IsChunk(f)
  {
    match h.kind
    case DataType => StreamFrame(h.id, Data(h.flags, h.length))
    case WindowUpdateType => StreamFrame(h.id, WindowUpdate(h.flags, h.length))
    case PingType => SessionFrame(Ping(h.flags, h.length))
    case GoAwayType => SessionFrame(GoAway(h.length))
  }

  function Encode(f: Frame): seq<byte> {
    if IsChunk(f) then f.event.chunk else EncodeHeader(HeaderOf(f))
  }

  function EncodeAll(fs: seq<Frame>): seq<byte> {
    FlatMap(Encode, fs)
  }

  lemma FrameRoundTrip(f: Frame)
    requires !IsChunk(f)
    ensures DecodeHeader(Encode(f)) == Ok(HeaderOf(f)) && FrameOf(HeaderOf(f)) == f
  {
    HeaderRoundTrip(HeaderOf(f));
  }

  /** Four bytes as a number, the most significant first. */
  function NumberAt(b: seq<byte>, i: nat): int
    requires i + 4 <= |b|
  {
    16777216 * (b[i] as int) + 65536 * (b[i + 1] as int) + 256 * (b[i + 2] as int) + (b[i + 3] as int)
  }

  /** The twelve bytes of a header, one by one: version 0, the type's code, the flags one bit each,
      and two numbers with their most significant byte first. */
  predicate HeaderBytes(b: seq<byte>, kind: byte, flags: Flags, id: u32, length: u32) {
    && |b| == 12 && b[0] == 0 && b[1] == kind && b[2] == 0
    && b[3] == (if flags.syn then 1 else 0) + (if flags.ack then 2 else 0)
             + (if flags.fin then 4 else 0) + (if flags.rst then 8 else 0)
    && NumberAt(b, 4) == id && NumberAt(b, 8) == length
  }

  lemma U32Sum(w: u32)
    ensures |U32Bytes(w)| == 4 && NumberAt(U32Bytes(w), 0) == w
  {
    IntegerRoundTrip(0, w);
  }

  /** What goes over the wire for every frame. */
  lemma EncodedBytes(f: Frame)
    ensures match f
            case StreamFrame(id, Data(flags, size)) => HeaderBytes(Encode(f), 0, flags, id, size)
            case StreamFrame(id, WindowUpdate(flags, delta)) => HeaderBytes(Encode(f), 1, flags, id, delta)
            case StreamFrame(_, DataChunk(chunk)) => Encode(f) == chunk
            case SessionFrame(Ping(flags, code)) => HeaderBytes(Encode(f), 2, flags, 0, code)
            case SessionFrame(GoAway(code)) => HeaderBytes(Encode(f), 3, NO_FLAGS, 0, code)
  {
    hide U32Bytes;
    if !IsChunk(f) {
      var h := HeaderOf(f);
      EncodedFields(h);
      U32Sum(h.id);
      U32Sum(h.length);
      var b := Encode(f);
      assert b[2] == b[2..4][0] && b[3] == b[2..4][1];
      assert forall i | 0 <= i < 4 :: b[4 + i] == b[4..8][i] && b[8 + i] == b[8..12][i];
    }
  }

  lemma SameParity(h: int, l: int)
    ensures (2 * h + l) % 2 == l % 2
  {
  }

  /** The high byte of the flags does not show in the low four bits. */
  lemma LowBits(h: nat, l: nat)
    ensures var v := 256 * h + l;
            v % 2 == l % 2 && v / 2 % 2 == l / 2 % 2 && v / 4 % 2 == l / 4 % 2 && v / 8 % 2 == l / 8 % 2
  {
    var v := 256 * h + l;
    assert v / 2 == 2 * (64 * h) + l / 2 && v / 4 == 2 * (32 * h) + l / 4 && v / 8 == 2 * (16 * h) + l / 8;
    SameParity(128 * h, l);
    SameParity(64 * h, l / 2);
    SameParity(32 * h, l / 4);
    SameParity(16 * h, l / 8);
  }

  lemma LowByteDecides(hi: byte, lo: byte)
    ensures FlagsFromBits(U16FromBytes([hi, lo]))
         == Flags(lo % 2 == 1, lo / 2 % 2 == 1, lo / 4 % 2 == 1, lo / 8 % 2 == 1)
  {
    LowBits(hi, lo);
    assert U16FromBytes([hi, lo]) as int == 256 * (hi as int) + (lo as int);
  }

  /** What twelve arbitrary bytes mean: type codes above 3 are errors, and neither the version nor the
      twelve undefined flag bits are looked at. */
  lemma DecodedBytes(b: seq<byte>)
    requires |b| == 12
    ensures b[1] > 3 ==> DecodeHeader(b) == Err(b[1])
    ensures b[1] <= 3 ==>
              && DecodeHeader(b).Ok?
              && var flags := Flags(b[3] % 2 == 1, b[3] / 2 % 2 == 1, b[3] / 4 % 2 == 1, b[3] / 8 % 2 == 1);
                 var (id, length) := (NumberAt(b, 4), NumberAt(b, 8));
                 FrameOf(DecodeHeader(b).value)
                 == if b[1] == 0 then StreamFrame(id, Data(flags, length))
                    else if b[1] == 1 then StreamFrame(id, WindowUpdate(flags, length))
                    else if b[1] == 2 then SessionFrame(Ping(flags, length))
                    else SessionFrame(GoAway(length))
  {
    assert b[2..4] == [b[2], b[3]];
    LowByteDecides(b[2], b[3]);
    assert forall i | 0 <= i < 4 :: b[4 + i] == b[4..8][i] && b[8 + i] == b[8..12][i];
  }

  // --- Tokens ------------------------------------------------------------------------------
  // A frame sequence, with the cutting of payloads into chunks forgotten: one token per
  // header and one per payload byte.

  datatype Item = Head(event: StreamEvent) | Octet(b: byte)

  datatype Token = SessionToken(control: SessionEvent) | StreamToken(id: u32, item: Item)

  function ItemsOf(e: StreamEvent): seq<Item> {
    match e
    case DataChunk(c) => seq(|c|, i requires 0 <= i < |c| => Octet(c[i]))
    case _ => [Head(e)]
  }

  function Items(es: seq<StreamEvent>): seq<Item> {
    FlatMap(ItemsOf, es)
  }

  function TokensOf(f: Frame): seq<Token> {
    match f
    case SessionFrame(e) => [SessionToken(e)]
    case StreamFrame(id, e) => var xs := ItemsOf(e); seq(|xs|, i requires 0 <= i < |xs| => StreamToken(id, xs[i]))
  }

  function Tokens(fs: seq<Frame>): seq<Token> {
    FlatMap(TokensOf, fs)
  }

  function Of(id: u32): Token -> seq<Item> {
    (t: Token) => if t.StreamToken? && t.id == id then [t.item] else []
  }

  /** The items of one stream within a token sequence. */
  function Project(ts: seq<Token>, id: u32): seq<Item> {
    FlatMap(Of(id), ts)
  }

  lemma {:induction false} ProjectUniform(ts: seq<Token>, id: u32, xs: seq<Item>, of: u32)
    requires |ts| == |xs| && forall i | 0 <= i < |ts| :: ts[i] == StreamToken(of, xs[i])
    ensures Project(ts, id) == if of == id then xs else []
  {
    if ts == [] {
    } else {
      ProjectUniform(ts[..|ts| - 1], id, xs[..|xs| - 1], of);
    }
  }

  lemma TokensSnoc(fs: seq<Frame>, f: Frame)
    ensures Tokens(fs + [f]) == Tokens(fs) + TokensOf(f)
  {
    FlatMapConcat(TokensOf, fs, [f]);
    FlatMapOne(TokensOf, f);
  }

  /** A frame contributes its items to its own stream and nothing to any other. */
  lemma ProjectFrame(f: Frame, id: u32)
    ensures Project(TokensOf(f), id) == if f.StreamFrame? && f.id == id then ItemsOf(f.event) else []
  {
    if f.StreamFrame? {
      ProjectUniform(TokensOf(f), id, ItemsOf(f.event), f.id);
    } else {
      FlatMapOne(Of(id), TokensOf(f)[0]);
    }
  }

  lemma ProjectSnoc(fs: seq<Frame>, f: Frame, id: u32)
    ensures Project(Tokens(fs + [f]), id)
         == Project(Tokens(fs), id) + if f.StreamFrame? && f.id == id then ItemsOf(f.event) else []
  {
    TokensSnoc(fs, f);
    FlatMapConcat(Of(id), Tokens(fs), TokensOf(f));
    ProjectFrame(f, id);
  }

  lemma ProjectPrefix(a: seq<Token>, b: seq<Token>, id: u32)
    requires a <= b
    ensures Project(a, id) <= Project(b, id)
  {
    assert b == a + b[|a|..];
    FlatMapConcat(Of(id), a, b[|a|..]);
  }
}
