/** Headers and frames over the chunked buffers, and the stateful frame reader and writer. */
module Framing {
  import opened Wire
  import opened Chunks
  import Codec

  // --- Headers -----------------------------------------------------------------------------

  /** Where the five fields of a header lie when they are taken one after another. */
  lemma HeaderFields(cs: seq<Chunk>)
    requires NonEmpty(cs) && |Flat(cs)| >= HEADER_LEN
    ensures var b := Flat(cs)[..HEADER_LEN];
            var (c1, c2) := (Codec.DropBytes(cs, 1), Codec.DropBytes(cs, 2));
            var (c4, c8) := (Codec.DropBytes(cs, 4), Codec.DropBytes(cs, 8));
            && cs != [] && Flat(cs)[0] == b[0]
            && c1 != [] && Flat(c1) != [] && Flat(c1)[0] == b[1] && Codec.DropBytes(c1, 1) == c2
            && |Flat(c2)| >= 2 && Flat(c2)[..2] == b[2..4] && Codec.DropBytes(c2, 2) == c4
            && |Flat(c4)| >= 4 && Flat(c4)[..4] == b[4..8] && Codec.DropBytes(c4, 4) == c8
            && |Flat(c8)| >= 4 && Flat(c8)[..4] == b[8..12] && Codec.DropBytes(c8, 4) == Codec.DropBytes(cs, HEADER_LEN)
  {
    hide Flat, Codec.DropBytes;
    NextByte(cs, 0);
    NextByte(cs, 1);
    Codec.DropBytesFlat(cs, 2);
    Codec.DropBytesFlat(cs, 4);
    Codec.DropBytesFlat(cs, 8);
    DropBytesAdd(cs, 2, 2);
    DropBytesAdd(cs, 4, 4);
    DropBytesAdd(cs, 8, 4);
  }

  /** `None` when a whole header is not there yet; an unknown type uses up its twelve bytes. */
  method ReadHeader(r: ChainedChunkBufferReader) returns (h: Result<Option<Header>, byte>)
    requires r.Valid()
    modifies r.Repr
    ensures r.Valid() && r.Repr == old(r.Repr)
    ensures h == Ok(None) <==> |Flat(old(r.Segments))| < HEADER_LEN
    ensures h == Ok(None) ==> r.Segments == old(r.Segments)
    ensures h != Ok(None) ==>
              && r.Segments == Codec.DropBytes(old(r.Segments), HEADER_LEN)
              && h == match DecodeHeader(Flat(old(r.Segments))[..HEADER_LEN])
                      case Ok(header) => Ok(Some(header))
                      case Err(kind) => Err(kind)
  {
    hide Flat, Codec.DropBytes, FlagsFromBits, U16FromBytes, U32FromBytes;
    ghost var before := r.Segments;
    if r.len < HEADER_LEN {
      return Ok(None);
    }
    HeaderFields(before);
    var version := r.NextU8();
    var kind := r.NextU8();
    var flags := r.NextU16();
    var id := r.NextU32();
    var length := r.NextU32();
    match TypeFromCode(kind.value) {
      case Err(e) => h := Err(e);
      case Ok(t) => h := Ok(Some(Header(version.value, t, FlagsFromBits(flags.value), id.value, length.value)));
    }
  }

  method WriteHeader(h: Header, w: ChainedChunkBufferWriter)
    requires w.Valid()
    modifies w.Repr
    ensures w.Valid() && fresh(w.Repr - old(w.Repr)) && w.Contents() == old(w.Contents()) + EncodeHeader(h)
  {
    hide Flat, FlagsBits, U16Bytes, U32Bytes, ChainedChunkBufferWriter.Shaped, ChainedChunkBufferWriter.Valid;
    w.WriteU8(h.version);
    w.WriteU8(TypeCode(h.kind));
    w.WriteU16(FlagsBits(h.flags));
    w.WriteU32(h.id);
    w.WriteU32(h.length);
    assert EncodeHeader(h)
        == [h.version] + [TypeCode(h.kind)] + U16Bytes(FlagsBits(h.flags)) + U32Bytes(h.id) + U32Bytes(h.length);
  }

  // --- Frames ------------------------------------------------------------------------------

  method ReadFrame(r: ChainedChunkBufferReader) returns (f: Result<Option<Frame>, byte>)
    requires r.Valid()
    modifies r.Repr
    ensures r.Valid() && r.Repr == old(r.Repr)
    ensures f == Ok(None) <==> |Flat(old(r.Segments))| < HEADER_LEN
    ensures f == Ok(None) ==> r.Segments == old(r.Segments)
    ensures f != Ok(None) ==>
              && r.Segments == Codec.DropBytes(old(r.Segments), HEADER_LEN)
              && f == match DecodeHeader(Flat(old(r.Segments))[..HEADER_LEN])
                      case Ok(header) => Ok(Some(FrameOf(header)))
                      case Err(kind) => Err(kind)
  {
    hide Flat, Codec.DropBytes, DecodeHeader, ChainedChunkBufferReader.Shaped;
    var h := ReadHeader(r);
    match h {
      case Err(e) => return Err(e);
      case Ok(None) => return Ok(None);
      case Ok(Some(header)) =>
        match header.kind {
          case DataType => return Ok(Some(StreamFrame(header.id, Data(header.flags, header.length))));
          case WindowUpdateType => return Ok(Some(StreamFrame(header.id, WindowUpdate(header.flags, header.length))));
          case PingType => return Ok(Some(SessionFrame(Ping(header.flags, header.length))));
          case GoAwayType => return Ok(Some(SessionFrame(GoAway(header.length))));
        }
    }
  }

  /** Payload chunks are copied as they are; every other frame is one header. */
  method EncodeFrame(f: Frame, w: ChainedChunkBufferWriter)
    requires w.Valid()
    modifies w.Repr
    ensures w.Valid() && fresh(w.Repr - old(w.Repr)) && w.Contents() == old(w.Contents()) + Encode(f)
  {
    hide Flat, EncodeHeader, ChainedChunkBufferWriter.Shaped, ChainedChunkBufferWriter.Valid;
    match f {
      case SessionFrame(Ping(flags, code)) => WriteHeader(Header(0, PingType, flags, 0, code), w);
      case SessionFrame(GoAway(code)) => WriteHeader(Header(0, GoAwayType, NO_FLAGS, 0, code), w);
      case StreamFrame(id, Data(flags, size)) => WriteHeader(Header(0, DataType, flags, id, size), w);
      case StreamFrame(id, WindowUpdate(flags, delta)) => WriteHeader(Header(0, WindowUpdateType, flags, id, delta), w);
      case StreamFrame(_, DataChunk(chunk)) =>
        if chunk != [] {
          w.WriteSlice(chunk);
        } else {
          assert w.Contents() + [] == w.Contents();
        }
    }
  }

  // --- FrameReader -------------------------------------------------------------------------

  class FrameReader {
    const buffer: ChainedChunkBufferReader

    var pending: Option<Codec.Pending>

    ghost predicate Shaped()
      reads this, buffer, buffer.Repr
    {
      buffer.Shaped() && buffer in buffer.Repr && this !in buffer.Repr
    }

    ghost predicate Valid()
      reads this, buffer, buffer.Repr
    {
      Shaped() && buffer.Valid()
    }

    /** The state the specification speaks of. */
    ghost function State(): Codec.Reader
      reads this, buffer
    {
      Codec.Reader(buffer.Segments, pending)
    }

    constructor ()
      ensures Valid() && State() == Codec.NEW_READER && fresh(buffer) && fresh(buffer.Repr)
    {
      buffer := new ChainedChunkBufferReader();
      pending := None;
    }

    method PushBack(chunk: ChunkView)
      requires Shaped() && chunk.Valid() && chunk !in buffer.Repr
      modifies buffer
      ensures Shaped() && buffer.Repr == old(buffer.Repr) + {chunk}
      ensures Valid() <==> old(Valid()) && chunk.Bytes() != []
      ensures State() == old(State()).(segments := old(State()).segments + [chunk.Bytes()])
    {
      buffer.PushBack(chunk);
    }

    method NextFrame() returns (r: Codec.Next)
      requires Valid()
      modifies this, buffer.Repr
      ensures Valid() && buffer.Repr == old(buffer.Repr)
      ensures (State(), r) == Codec.NextFrame(old(State()))
    {
      hide Flat, Codec.DropBytes, DecodeHeader, ChainedChunkBufferReader.Shaped;
      if pending.Some? {
        var Pending(id, remain) := pending.value;
        var chunk := buffer.NextChunk(remain);
        if chunk.None? {
          return Codec.NeedMore;
        }
        var bytes := chunk.value.Bytes();
        pending := if remain == |bytes| then None else Some(Codec.Pending(id, remain - |bytes|));
        return Codec.Parsed(StreamFrame(id, DataChunk(bytes)));
      }
      var f := ReadFrame(buffer);
      match f {
        case Err(kind) => return Codec.UnknownType(kind);
        case Ok(None) => return Codec.NeedMore;
        case Ok(Some(frame)) =>
          if frame.StreamFrame? && frame.event.Data? {
            pending := Some(Codec.Pending(frame.id, frame.event.size));
          }
          return Codec.Parsed(frame);
      }
    }
  }

  // --- FrameWriter -------------------------------------------------------------------------

  class FrameWriter {
    const buffer: ChainedChunkBufferWriter

    var pending: Option<Codec.Pending>

    ghost predicate Valid()
      reads this, buffer, buffer.Repr
    {
      buffer.Valid() && buffer in buffer.Repr && this !in buffer.Repr
    }

    constructor ()
      ensures Valid() && pending == None && buffer.Contents() == [] && fresh(buffer) && fresh(buffer.Repr)
    {
      buffer := new ChainedChunkBufferWriter();
      pending := None;
    }

    /** Accepts exactly what the sequencing rules allow; a refused frame leaves everything as it was. */
    method Write(f: Frame) returns (r: Result<(), Codec.WriterError>)
      requires Valid()
      modifies this, buffer.Repr
      ensures Valid() && fresh(buffer.Repr - old(buffer.Repr))
      ensures r.Ok? ==>
                && Codec.WriteFrame(old(pending), f) == Ok(pending)
                && buffer.Contents() == old(buffer.Contents()) + Encode(f)
      ensures r.Err? ==>
                && Codec.WriteFrame(old(pending), f) == Err(r.error)
                && pending == old(pending) && buffer.Contents() == old(buffer.Contents())
      ensures r == Err(Codec.UnexpectedFrameType) <==> (old(pending).Some? <==> !(f.StreamFrame? && f.event.DataChunk?))
      ensures r == Err(Codec.InvalidStreamId) <==>
                old(pending).Some? && f.StreamFrame? && f.event.DataChunk? && f.id != old(pending).value.id
      ensures r == Err(Codec.ChunkTooLarge) <==>
                && old(pending).Some? && f.StreamFrame? && f.event.DataChunk? && f.id == old(pending).value.id
                && |f.event.chunk| > old(pending).value.remain
    {
      hide Flat, Encode, ChainedChunkBufferWriter.Shaped;
      if pending.Some? {
        var Pending(id, remain) := pending.value;
        if !IsChunk(f) {
          return Err(Codec.UnexpectedFrameType);
        }
        if f.id != id {
          return Err(Codec.InvalidStreamId);
        }
        var size := |f.event.chunk|;
        if size > remain {
          return Err(Codec.ChunkTooLarge);
        }
        pending := if remain - size == 0 then None else Some(Codec.Pending(id, remain - size));
      } else if f.StreamFrame? && f.event.Data? {
        pending := Some(Codec.Pending(f.id, f.event.size));
      } else if IsChunk(f) {
        return Err(Codec.UnexpectedFrameType);
      }
      EncodeFrame(f, buffer);
      return Ok(());
    }
  }
}
