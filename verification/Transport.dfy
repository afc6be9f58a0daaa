/** The transport: frames in and out over a byte stream that takes and gives what it likes. */
module Transport {
  import opened Wire
  import opened Chunks
  import opened Framing
  import Codec

  /** The wrapped byte stream. What it accepts, when it blocks and where it cuts is arbitrary;
      `incoming` is what the peer's side has sent and is not read yet. */
  class Io {
    var accepted: seq<byte>
    var incoming: seq<byte>
    var delivered: seq<byte>
    var idle: nat
    ghost var refused: nat  // writes answered Pending
    ghost var waited: nat  // reads answered Pending
    ghost var ended: nat  // reads that found the end

    constructor (supply: seq<byte>)
      ensures accepted == [] && delivered == [] && incoming == supply && refused == waited == ended == 0
    {
      accepted, delivered, incoming, idle := [], [], supply, *;
      refused, waited, ended := 0, 0, 0;
    }

    /** `None` is Pending; otherwise any part of the bytes has been taken. Nothing at all may be
        taken any number of times, but not for ever: `idle` bounds how often it can still happen. */
    method PollWrite(front: seq<byte>) returns (r: Option<nat>)
      requires front != []
      modifies this`accepted, this`idle, this`refused
      ensures refused == old(refused) + if r.None? then 1 else 0
      ensures r.None? ==> accepted == old(accepted)
      ensures r.Some? ==> r.value <= |front| && accepted == old(accepted) + front[..r.value]
      ensures r == Some(0) ==> idle < old(idle)
    {
      if * {
        refused := refused + 1;
        return None;
      }
      var n: nat :| n <= |front| && (n == 0 ==> idle > 0);
      accepted := accepted + front[..n];
      if n == 0 {
        idle := idle - 1;
      } else {
        idle := *;
      }
      return Some(n);
    }

    /** `None` is Pending, an empty read is the end of the stream. */
    method PollRead(max: nat) returns (r: Option<seq<byte>>)
      requires max > 0
      modifies this`incoming, this`delivered, this`waited, this`ended
      ensures waited == old(waited) + if r.None? then 1 else 0
      ensures ended == old(ended) + if r == Some([]) then 1 else 0
      ensures r.None? || r.value == [] ==> incoming == old(incoming) && delivered == old(delivered)
      ensures r.Some? ==>
                |r.value| <= max && old(incoming) == r.value + incoming && delivered == old(delivered) + r.value
    {
      if * {
        waited := waited + 1;
        return None;
      }
      var n: nat :| n <= |incoming| && n <= max;
      r := Some(incoming[..n]);
      if n == 0 {
        ended := ended + 1;
      }
      delivered, incoming := delivered + incoming[..n], incoming[n..];
    }
  }

  /** The reader after some reads. */
  ghost function Fed(r: Codec.Reader, segments: seq<Chunk>): Codec.Reader {
    r.(segments := r.segments + segments)
  }

  /** Each read happened because the bytes so far made no frame. */
  ghost predicate Needed(r: Codec.Reader, segments: seq<Chunk>) {
    forall k | 0 <= k < |segments| ::
      && 1 <= |segments[k]| <= READ_BUFFER
      && Codec.NextFrame(Fed(r, segments[..k])).1.NeedMore?
  }

  lemma NoneNeeded(r: Codec.Reader)
    ensures Needed(r, [])
  {
  }

  lemma NeedsOneMore(r: Codec.Reader, segments: seq<Chunk>, c: Chunk)
    requires Needed(r, segments) && 1 <= |c| <= READ_BUFFER && Codec.NextFrame(Fed(r, segments)).1.NeedMore?
    ensures Needed(r, segments + [c])
  {
    hide Codec.NextFrame;
    var all := segments + [c];
    forall k | 0 <= k < |all|
      ensures 1 <= |all[k]| <= READ_BUFFER && Codec.NextFrame(Fed(r, all[..k])).1.NeedMore?
    {
      if k < |segments| {
        assert all[..k] == segments[..k];
      } else {
        assert all[..k] == segments;
      }
    }
  }

  lemma NeededPrefix(r: Codec.Reader, segments: seq<Chunk>)
    requires segments != [] && Needed(r, segments)
    ensures var n := |segments| - 1;
            && Needed(r, segments[..n]) && 1 <= |segments[n]| <= READ_BUFFER
            && Codec.NextFrame(Fed(r, segments[..n])).1.NeedMore?
  {
    hide Codec.NextFrame;
    var front := segments[..|segments| - 1];
    assert forall k | 0 <= k < |front| :: front[..k] == segments[..k];
  }

  datatype Event = Arrived(frame: Frame) | Waiting | Closed | ParseError(kind: byte)

  lemma NothingYet()
    ensures Flat([]) == []
  {
  }

  lemma NeedMoreSame(r: Codec.Reader)
    ensures Codec.NextFrame(r).1.NeedMore? ==> Codec.NextFrame(r).0 == r
  {
    hide DecodeHeader;
  }

  function EventOf(next: Codec.Next): Event {
    match next
    case Parsed(f) => Arrived(f)
    case UnknownType(k) => ParseError(k)
    case NeedMore => Waiting
  }

  class YamuxTransport {
    const stream: Io
    const limit: nat
    const writer: FrameWriter
    const reader: FrameReader

    ghost function Repr(): set<object>
      reads this, writer, reader, writer.buffer, reader.buffer
    {
      {this, stream, writer, reader, writer.buffer, reader.buffer} + writer.buffer.Repr + reader.buffer.Repr
    }

    ghost predicate Valid()
      reads this, writer, reader, writer.buffer, reader.buffer, writer.buffer.Repr, reader.buffer.Repr
    {
      && writer.Valid() && reader.Valid()
      && writer.buffer.Repr !! reader.buffer.Repr
      && {this, stream, writer, reader} !! writer.buffer.Repr + reader.buffer.Repr
    }

    ghost function Buffered(): seq<byte>
      reads this, writer, writer.buffer
    {
      writer.buffer.Contents()
    }

    constructor (io: Io, maxWriterBuffer: nat)
      ensures Valid() && stream == io && limit == maxWriterBuffer && fresh(Repr() - {io})
      ensures Buffered() == [] && reader.State() == Codec.NEW_READER
    {
      hide Flat, ChainedChunkBufferWriter.Shaped;
      stream, limit := io, maxWriterBuffer;
      writer := new FrameWriter();
      reader := new FrameReader();
    }

    /** Hands buffered bytes over until none are left or the stream blocks. */
    method PollWrite() returns (ready: bool)
      requires Valid()
      modifies stream`accepted, stream`refused, stream`idle, writer.buffer.Repr
      ensures Valid() && writer.buffer.Repr == old(writer.buffer.Repr)
      ensures stream.accepted + Buffered() == old(stream.accepted + Buffered())
      ensures old(stream.accepted) <= stream.accepted
      ensures stream.incoming == old(stream.incoming) && stream.delivered == old(stream.delivered)
      ensures reader.State() == old(reader.State()) && reader.buffer.Repr == old(reader.buffer.Repr)
      ensures ready <==> Buffered() == []
      ensures stream.refused == old(stream.refused) + if ready then 0 else 1
      ensures stream.waited == old(stream.waited) && stream.ended == old(stream.ended)
    {
      hide Flat, ChainedChunkBufferWriter.Shaped, ChainedChunkBufferReader.Shaped;
      ghost var start := stream.accepted;
      while true
        invariant Valid() && writer.buffer.Repr == old(writer.buffer.Repr)
        invariant stream.accepted + Buffered() == old(stream.accepted + Buffered())
        invariant start <= stream.accepted
        invariant stream.incoming == old(stream.incoming) && stream.delivered == old(stream.delivered)
        invariant reader.State() == old(reader.State()) && reader.buffer.Repr == old(reader.buffer.Repr)
        invariant stream.refused == old(stream.refused)
        invariant stream.waited == old(stream.waited) && stream.ended == old(stream.ended)
        decreases |Buffered()|, stream.idle
      {
        var front := writer.buffer.FrontSlice();
        if front.None? {
          return true;
        }
        var written := stream.PollWrite(front.value);
        if written.None? {
          return false;
        }
        ghost var before := Buffered();
        writer.buffer.ConsumeFront(written.value);
        assert before == front.value[..written.value] + Buffered();
      }
    }

    method PollReady() returns (ready: bool)
      requires Valid()
      modifies stream`accepted, stream`refused, stream`idle, writer.buffer.Repr
      ensures Valid() && writer.buffer.Repr == old(writer.buffer.Repr)
      ensures stream.accepted + Buffered() == old(stream.accepted + Buffered())
      ensures old(stream.accepted) <= stream.accepted
      ensures stream.incoming == old(stream.incoming) && stream.delivered == old(stream.delivered)
      ensures reader.State() == old(reader.State()) && reader.buffer.Repr == old(reader.buffer.Repr)
      ensures ready <==> Buffered() == [] || |Buffered()| < limit
      ensures stream.refused == old(stream.refused) + if Buffered() == [] then 0 else 1
      ensures stream.waited == old(stream.waited) && stream.ended == old(stream.ended)
    {
      hide Flat, ChainedChunkBufferReader.Shaped;
      var drained := PollWrite();
      if drained {
        return true;
      }
      writer.buffer.Sizes();
      return writer.buffer.filledLen < limit;
    }

    method StartSend(f: Frame)
      requires Valid()
      modifies writer.buffer.Repr
      ensures Valid() && fresh(writer.buffer.Repr - old(writer.buffer.Repr))
      ensures Buffered() == old(Buffered()) + Encode(f) && unchanged(stream)
      ensures reader.State() == old(reader.State()) && reader.buffer.Repr == old(reader.buffer.Repr)
    {
      hide Flat, Encode, ChainedChunkBufferWriter.Shaped, ChainedChunkBufferReader.Shaped;
      EncodeFrame(f, writer.buffer);
    }

    /** One read into the 4096-byte array; what arrives goes behind the reader's other bytes. */
    method ReadSegment() returns (r: Option<seq<byte>>)
      requires Valid()
      modifies stream`incoming, stream`delivered, stream`waited, stream`ended, reader.buffer
      ensures stream.waited == old(stream.waited) + if r.None? then 1 else 0
      ensures stream.ended == old(stream.ended) + if r == Some([]) then 1 else 0
      ensures Valid() && fresh(reader.buffer.Repr - old(reader.buffer.Repr))
      ensures stream.accepted == old(stream.accepted)
      ensures Buffered() == old(Buffered()) && writer.buffer.Repr == old(writer.buffer.Repr)
      ensures r.None? || r.value == [] ==>
                && reader.State() == old(reader.State())
                && stream.incoming == old(stream.incoming) && stream.delivered == old(stream.delivered)
      ensures r.Some? && r.value != [] ==>
                && |r.value| <= READ_BUFFER && old(stream.incoming) == r.value + stream.incoming
                && stream.delivered == old(stream.delivered) + r.value
                && reader.State() == old(reader.State()).(segments := old(reader.State()).segments + [r.value])
    {
      hide ChainedChunkBufferWriter.Shaped, ChainedChunkBufferReader.Shaped;
      r := stream.PollRead(READ_BUFFER);
      if r.Some? && r.value != [] {
        var chunk := new ChunkView(r.value, 0, |r.value|);
        assert r.value[0..|r.value|] == r.value;
        reader.PushBack(chunk);
      }
    }

    /** Bytes not parsed yet, here or at the network. */
    ghost function Unparsed(): nat
      reads this, stream, reader, reader.buffer
    {
      |stream.incoming| + |Flat(reader.State().segments)|
    }

    lemma Shrinks()
      requires Valid() && Codec.NextFrame(reader.State()).1.Parsed?
      ensures var after := Codec.NextFrame(reader.State()).0;
              || |Flat(after.segments)| < |Flat(reader.State().segments)|
              || (&& |Flat(after.segments)| == |Flat(reader.State().segments)|
                  && reader.pending.Some? && after.pending.None?)
    {
      hide Flat, Codec.NextFrame;
      Codec.NextFrameShrinks(reader.State());
    }

    /** Parses a frame out of what is buffered, reading more only as long as that yields none. */
    method PollNext() returns (event: Event, ghost received: seq<Chunk>)
      requires Valid()
      modifies stream`incoming, stream`delivered, stream`waited, stream`ended, reader, reader.buffer.Repr
      ensures stream.waited == old(stream.waited) + if event.Waiting? then 1 else 0
      ensures stream.ended == old(stream.ended) + if event.Closed? then 1 else 0
      ensures Valid() && fresh(reader.buffer.Repr - old(reader.buffer.Repr))
      ensures Buffered() == old(Buffered()) && writer.buffer.Repr == old(writer.buffer.Repr)
      ensures Needed(old(reader.State()), received)
      ensures stream.accepted == old(stream.accepted) && stream.refused == old(stream.refused)
      ensures stream.delivered == old(stream.delivered) + Flat(received)
      ensures old(stream.incoming) == Flat(received) + stream.incoming
      ensures match event
              case Arrived(f) =>
                && Codec.NextFrame(Fed(old(reader.State()), received)) == (reader.State(), Codec.Parsed(f))
                && (|| Unparsed() < old(Unparsed())
                    || (Unparsed() == old(Unparsed()) && old(reader.pending).Some? && reader.pending.None?))
              case ParseError(k) =>
                Codec.NextFrame(Fed(old(reader.State()), received)) == (reader.State(), Codec.UnknownType(k))
              case _ =>
                reader.State() == Fed(old(reader.State()), received) && Codec.NextFrame(reader.State()).1.NeedMore?
    {
      hide Flat, Codec.NextFrame, Needed, ChainedChunkBufferWriter.Shaped, ChainedChunkBufferReader.Shaped;
      received := [];
      ghost var start := reader.State();
      assert start.segments + [] == start.segments;
      NothingYet();
      assert Needed(start, []) by { NoneNeeded(start); }
      if Codec.NextFrame(start).1.Parsed? {
        Shrinks();
      }
      var next := reader.NextFrame();
      NeedMoreSame(start);
      if !next.NeedMore? {
        event := EventOf(next);
        return;
      }
      while true
        invariant Valid() && fresh(reader.buffer.Repr - old(reader.buffer.Repr))
        invariant Buffered() == old(Buffered()) && writer.buffer.Repr == old(writer.buffer.Repr)
        invariant stream.accepted == old(stream.accepted) && stream.refused == old(stream.refused)
        invariant stream.waited == old(stream.waited) && stream.ended == old(stream.ended)
        invariant Needed(start, received) && reader.State() == Fed(start, received)
        invariant Codec.NextFrame(reader.State()).1.NeedMore?
        invariant stream.delivered == old(stream.delivered) + Flat(received)
        invariant old(stream.incoming) == Flat(received) + stream.incoming
        invariant Unparsed() == old(Unparsed()) && reader.pending == old(reader.pending)
        decreases |stream.incoming|
      {
        var r := ReadSegment();
        if r.None? {
          return Waiting, received;
        }
        if r.value == [] {
          return Closed, received;
        }
        FlatSnoc(received, r.value);
        NeedsOneMore(start, received, r.value);
        FlatSnoc(Fed(start, received).segments, r.value);
        assert Fed(start, received).segments + [r.value] == Fed(start, received + [r.value]).segments;
        received := received + [r.value];
        ghost var fed := reader.State();
        if Codec.NextFrame(fed).1.Parsed? {
          Shrinks();
        }
        next := reader.NextFrame();
        NeedMoreSame(fed);
        if !next.NeedMore? {
          event := EventOf(next);
          return;
        }
      }
    }
  }
}
