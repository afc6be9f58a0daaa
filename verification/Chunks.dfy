/** The chunked buffers: shared views, owned blocks, and the chained writer and reader. */
module Chunks {
  import opened Wire
  import Codec

  datatype ChunkError = Overflow(attempted: nat)

  lemma SliceOfSlice(s: seq<byte>, start: nat, end: nat, lo: nat, hi: nat)
    requires start <= end <= |s| && lo <= hi <= end - start
    ensures s[start + lo..start + hi] == s[start..end][lo..hi]
  {
    var t := s[start..end];
    forall k | 0 <= k < hi - lo ensures t[lo..hi][k] == s[start + lo..start + hi][k] {
      assert t[lo + k] == s[start + lo + k];
    }
  }

  lemma TakeMore(a: seq<byte>, s: seq<byte>, i: nat, j: nat)
    requires i <= j <= |s|
    ensures (a + s[..i]) + s[i..j] == a + s[..j]
  {
  }

  /** A window into a block that is never written again; reading moves its start. */
  class ChunkView {
    const data: seq<byte>
    const end: nat

    var start: nat

    ghost predicate Valid()
      reads this
    {
      start <= end <= |data|
    }

    function Bytes(): seq<byte>
      reads this
      requires Valid()
    {
      data[start..end]
    }

    /** A range that starts behind its end gives a view nothing can be done with. */
    constructor (block: seq<byte>, lo: nat, hi: nat)
      requires hi <= |block|
      ensures start == lo && end == hi && data == block && (Valid() <==> lo <= hi)
      ensures lo <= hi ==> Bytes() == block[lo..hi]
    {
      data, start, end := block, lo, hi;
    }

    method View(lo: nat, hi: nat) returns (r: Result<ChunkView, ChunkError>)
      requires Valid()
      ensures r.Ok? <==> hi <= |Bytes()|
      ensures r.Ok? ==> fresh(r.value) && (r.value.Valid() <==> lo <= hi)
      ensures r.Ok? && lo <= hi ==> r.value.Bytes() == Bytes()[lo..hi]
      ensures r.Err? ==> r.error == Overflow(start + hi)
    {
      if hi > end - start {
        return Err(Overflow(start + hi));
      }
      var v := new ChunkView(data, start + lo, start + hi);
      if lo <= hi {
        SliceOfSlice(data, start, end, lo, hi);
      }
      return Ok(v);
    }

    method NextU8() returns (r: Option<byte>)
      requires Valid()
      modifies this
      ensures Valid()
      ensures r == (if old(Bytes()) == [] then None else Some(old(Bytes())[0]))
      ensures Bytes() == (if old(Bytes()) == [] then [] else old(Bytes())[1..])
    {
      if start == end {
        return None;
      }
      r := Some(data[start]);
      start := start + 1;
    }

    method NextChunk(maxLen: nat) returns (r: Option<ChunkView>)
      requires Valid()
      modifies this
      ensures Valid()
      ensures r.None? <==> old(Bytes()) == []
      ensures r.None? ==> Bytes() == []
      ensures r.Some? ==>
                var n := if maxLen < |old(Bytes())| then maxLen else |old(Bytes())|;
                && fresh(r.value) && r.value.Valid()
                && r.value.Bytes() == old(Bytes())[..n] && Bytes() == old(Bytes())[n..]
    {
      if start == end {
        return None;
      }
      var len := if maxLen < end - start then maxLen else end - start;
      var v := View(0, len);
      start := start + len;
      return Some(v.value);
    }
  }

  /** A block being filled at one end and drained at the other. */
  class ChunkOwned {
    const data: array<byte>

    var len: nat
    var consumed: nat

    ghost predicate Valid()
      reads this
    {
      consumed <= len <= data.Length
    }

    function FilledSlice(): (r: seq<byte>)
      reads this, data
      requires Valid()
      ensures |r| == len - consumed
    {
      data[consumed..len]
    }

    lemma FromStart(all: seq<byte>)
      requires Valid() && all == data[..len]
      ensures |all| == |FilledSlice()| + consumed && (consumed == 0 ==> all == FilledSlice())
    {
    }

    constructor ()
      ensures Valid() && fresh(data) && data.Length == CHUNK_CAPACITY && len == 0 && consumed == 0
      ensures FilledSlice() == []
    {
      data := new byte[CHUNK_CAPACITY](_ => 0);
      len, consumed := 0, 0;
    }

    function FilledLen(): nat
      reads this
      requires Valid()
    {
      len - consumed
    }

    lemma Lengths()
      requires Valid()
      ensures |FilledSlice()| == FilledLen()
    {
    }

    /** A view starts at the block's first byte, so it shows what is left exactly when nothing has
        been consumed. */
    method IntoView() returns (v: ChunkView)
      requires Valid()
      ensures fresh(v) && v.Valid() && (v.Bytes() == FilledSlice() <==> consumed == 0)
      ensures |v.Bytes()| == |FilledSlice()| + consumed
    {
      v := new ChunkView(data[..len], 0, len);
      FromStart(v.Bytes());
    }

    method ConsumeFront(n: nat)
      requires Valid() && n <= len - consumed
      modifies this`consumed
      ensures Valid() && consumed == old(consumed) + n
      ensures FilledSlice() == old(FilledSlice())[n..]
    {
      consumed := consumed + n;
    }

    method WriteSlice(chunk: seq<byte>)
      requires Valid() && |chunk| <= data.Length - len
      modifies this`len, data
      ensures Valid() && len == old(len) + |chunk|
      ensures FilledSlice() == old(FilledSlice()) + chunk
    {
      forall i | 0 <= i < |chunk| {
        data[len + i] := chunk[i];
      }
      len := len + |chunk|;
    }

    method WriteU8(b: byte)
      requires Valid() && len < data.Length
      modifies this`len, data
      ensures Valid() && len == old(len) + 1
      ensures FilledSlice() == old(FilledSlice()) + [b]
    {
      data[len] := b;
      len := len + 1;
    }
  }

  lemma FlatGrowLast(cs: seq<Chunk>, more: seq<byte>)
    requires cs != []
    ensures Flat(cs[|cs| - 1 := cs[|cs| - 1] + more]) == Flat(cs) + more
  {
    var n := |cs| - 1;
    assert cs == cs[..n] + [cs[n]] && cs[n := cs[n] + more] == cs[..n] + [cs[n] + more];
    FlatSnoc(cs[..n], cs[n]);
    FlatSnoc(cs[..n], cs[n] + more);
  }

  lemma FlatDropFront(cs: seq<Chunk>, n: nat)
    requires cs != [] && n <= |cs[0]|
    ensures Flat(cs) == cs[0][..n] + Flat(cs[0 := cs[0][n..]])
    ensures |Flat(cs)| == n + |Flat(cs[0 := cs[0][n..]])|
    ensures n == |cs[0]| ==> Flat(cs[1..]) == Flat(cs[0 := cs[0][n..]])
  {
    assert cs == [cs[0]] + cs[1..] && cs[0 := cs[0][n..]] == [cs[0][n..]] + cs[1..];
    FlatCons(cs[0], cs[1..]);
    FlatCons(cs[0][n..], cs[1..]);
  }

  lemma FlatSplitFront(cs: seq<Chunk>)
    requires cs != []
    ensures Flat(cs) == cs[0] + Flat(cs[1..]) && |Flat(cs)| == |cs[0]| + |Flat(cs[1..])|
  {
    assert cs == [cs[0]] + cs[1..];
    FlatCons(cs[0], cs[1..]);
  }

  lemma {:induction false} FullBlocks(cs: seq<Chunk>)
    requires cs != [] && cs[0] != []
    requires forall i | 0 < i < |cs| :: |cs[i]| == CHUNK_CAPACITY
    ensures |Flat(cs)| >= 1 + CHUNK_CAPACITY * (|cs| - 1)
  {
    var n := |cs| - 1;
    assert cs == cs[..n] + [cs[n]];
    FlatSnoc(cs[..n], cs[n]);
    if n == 0 {
    } else {
      FullBlocks(cs[..n]);
    }
  }

  /** With two or more blocks, all between the first and the last are full, and those two are not
      empty. */
  lemma {:induction false} BlockBound(cs: seq<Chunk>)
    requires |cs| >= 2 && cs[0] != [] && cs[|cs| - 1] != []
    requires forall i | 0 < i < |cs| - 1 :: |cs[i]| == CHUNK_CAPACITY
    ensures |cs| <= (|Flat(cs)| - 2) / CHUNK_CAPACITY + 2
  {
    var n := |cs| - 1;
    FlatSnoc(cs[..n], cs[n]);
    assert cs == cs[..n] + [cs[n]];
    FullBlocks(cs[..n]);
  }

  class ChainedChunkBufferWriter {
    var queue: seq<ChunkOwned>
    var filledLen: nat
    ghost var Repr: set<object>
    ghost var Blocks: seq<Chunk>  // what is left of each block

    /** All blocks but the last are full and only the front is partly consumed. */
    ghost predicate Shaped()
      reads this, Repr
    {
      && this in Repr
      && |Blocks| == |queue| && filledLen == |Flat(Blocks)|
      && (forall i | 0 <= i < |queue| :: queue[i] in Repr && queue[i].data in Repr)
      && (forall i, j | 0 <= i < j < |queue| :: queue[i] != queue[j] && queue[i].data != queue[j].data)
      && (forall i | 0 <= i < |queue| ::
            && queue[i].Valid() && queue[i].data.Length == CHUNK_CAPACITY && queue[i].FilledSlice() == Blocks[i]
            && (i + 1 < |queue| ==> queue[i].len == CHUNK_CAPACITY)
            && (0 < i ==> queue[i].consumed == 0))
    }

    ghost predicate Valid()
      reads this, Repr
    {
      this in Repr && Shaped() && (queue != [] ==> Blocks[0] != [] && Blocks[|queue| - 1] != [])
    }

    ghost function Contents(): seq<byte>
      reads this
    {
      Flat(Blocks)
    }

    lemma Sizes()
      requires Valid()
      ensures |Blocks| == |queue| && filledLen == |Contents()| && NonEmpty(Blocks)
    {
      hide Flat;
      forall i | 0 <= i < |Blocks| ensures |Blocks[i]| > 0 {
        assert |queue[i].FilledSlice()| == queue[i].len - queue[i].consumed;
      }
    }

    /** How many blocks hold what is buffered. */
    lemma BlockCount()
      requires Valid() && |queue| >= 2
      ensures |queue| <= (filledLen - 2) / CHUNK_CAPACITY + 2
    {
      hide Flat;
      forall i | 0 < i < |Blocks| - 1 ensures |Blocks[i]| == CHUNK_CAPACITY {
        assert |queue[i].FilledSlice()| == queue[i].len - queue[i].consumed;
      }
      BlockBound(Blocks);
    }

    lemma BlockAt(i: nat)
      requires Valid() && i < |queue|
      ensures |Blocks| == |queue| && queue[i].Valid() && queue[i].FilledSlice() == Blocks[i]
      ensures 0 < i ==> queue[i].consumed == 0
    {
    }

    constructor ()
      ensures Valid() && Contents() == [] && fresh(Repr)
    {
      queue, filledLen, Blocks, Repr := [], 0, [], {this};
    }

    /** Counts bytes just put into the last block. */
    method Grown(bytes: seq<byte>)
      requires this in Repr && |Blocks| == |queue| > 0
      requires var n := |queue| - 1;
               queue[n].Valid() && queue[n].FilledSlice() == Blocks[n] + bytes
      modifies this
      ensures queue == old(queue) && Repr == old(Repr) && filledLen == old(filledLen) + |bytes|
      ensures Blocks == old(Blocks)[|queue| - 1 := old(Blocks)[|queue| - 1] + bytes]
    {
      filledLen := filledLen + |bytes|;
      Blocks := Blocks[|queue| - 1 := Blocks[|queue| - 1] + bytes];
    }

    /** Into the room left in the last block. */
    method AppendToLast(bytes: seq<byte>)
      requires Shaped() && queue != [] && |bytes| <= CHUNK_CAPACITY - queue[|queue| - 1].len
      requires |queue| > 1 ==> Blocks[0] != []
      modifies Repr
      ensures Shaped() && Repr == old(Repr) && Contents() == old(Contents()) + bytes
      ensures bytes != [] ==> Valid()
      ensures queue == old(queue) && queue[|queue| - 1].len == old(queue[|queue| - 1].len) + |bytes|
    {
      hide Flat, ChunkOwned.FilledSlice;
      FlatGrowLast(Blocks, bytes);
      queue[|queue| - 1].WriteSlice(bytes);
      Grown(bytes);
    }

    lemma OwnsItself()
      requires Shaped()
      ensures this in Repr
    {
    }

    method PushBlock(c: ChunkOwned)
      requires Shaped() && (queue != [] ==> Valid() && queue[|queue| - 1].len == CHUNK_CAPACITY)
      requires c !in Repr && c.data !in Repr
      requires c.Valid() && c.data.Length == CHUNK_CAPACITY && c.consumed == 0
      modifies this
      ensures Shaped() && Repr == old(Repr) + {c, c.data}
      ensures Contents() == old(Contents()) + c.FilledSlice() && queue == old(queue) + [c]
      ensures c.FilledSlice() != [] ==> Valid()
    {
      hide Flat, ChunkOwned.FilledSlice;
      FlatSnoc(Blocks, c.FilledSlice());
      queue, Blocks := queue + [c], Blocks + [c.FilledSlice()];
      filledLen := filledLen + |c.FilledSlice()|;
      Repr := Repr + {c, c.data};
    }

    /** Into a new block behind a full one. */
    method AppendBlock(bytes: seq<byte>)
      requires Shaped() && |bytes| <= CHUNK_CAPACITY
      requires queue != [] ==> Valid() && queue[|queue| - 1].len == CHUNK_CAPACITY
      modifies Repr
      ensures Shaped() && fresh(Repr - old(Repr)) && Contents() == old(Contents()) + bytes
      ensures bytes != [] ==> Valid()
      ensures |queue| == |old(queue)| + 1 && queue[|queue| - 1].len == |bytes|
    {
      hide Flat, Shaped, ChunkOwned.FilledSlice;
      var c := new ChunkOwned();
      c.WriteSlice(bytes);
      assert [] + bytes == bytes;
      OwnsItself();
      PushBlock(c);
    }

    method WriteU8(b: byte)
      requires Valid()
      modifies Repr
      ensures Valid() && fresh(Repr - old(Repr)) && Contents() == old(Contents()) + [b]
    {
      if queue != [] && queue[|queue| - 1].len < CHUNK_CAPACITY {
        AppendToLast([b]);
      } else {
        AppendBlock([b]);
      }
    }

    lemma LastFits()
      requires Shaped() && queue != []
      ensures queue[|queue| - 1].len <= CHUNK_CAPACITY
    {
    }

    method WriteSlice(bytes: seq<byte>)
      requires Valid()
      modifies Repr
      ensures Valid() && fresh(Repr - old(Repr)) && Contents() == old(Contents()) + bytes
    {
      hide Flat, Shaped;
      if bytes == [] {
        assert Contents() + [] == Contents();
        return;
      }
      if queue == [] {
        AppendBlock([]);
      }
      var offset := 0;
      assert bytes[..0] == [];
      while offset < |bytes|
        invariant offset <= |bytes|
        invariant Shaped() && fresh(Repr - old(Repr))
        invariant queue != [] && (Valid() || (|queue| == 1 && queue[0].len == 0))
        invariant offset > 0 ==> Valid()
        invariant Contents() == old(Contents()) + bytes[..offset]
      {
        LastFits();
        var room := CHUNK_CAPACITY - queue[|queue| - 1].len;
        if room == 0 {
          room := CHUNK_CAPACITY;
          var n := if room < |bytes| - offset then room else |bytes| - offset;
          AppendBlock(bytes[offset..offset + n]);
          TakeMore(old(Contents()), bytes, offset, offset + n);
          offset := offset + n;
        } else {
          var n := if room < |bytes| - offset then room else |bytes| - offset;
          AppendToLast(bytes[offset..offset + n]);
          TakeMore(old(Contents()), bytes, offset, offset + n);
          offset := offset + n;
        }
      }
      assert bytes[..offset] == bytes;
    }

    method FrontSlice() returns (r: Option<seq<byte>>)
      requires Valid()
      ensures r.None? <==> Contents() == []
      ensures r.Some? ==> r.value != [] && r.value <= Contents() && queue != [] && r.value == Blocks[0]
    {
      if queue == [] {
        return None;
      }
      Codec.FrontChunk(Blocks);
      return Some(queue[0].FilledSlice());
    }

    method Advance(n: nat)
      requires Valid() && queue != [] && n <= |Blocks[0]|
      modifies Repr
      ensures Shaped() && Repr == old(Repr) && queue == old(queue)
      ensures old(Contents()) == old(Blocks[0])[..n] + Contents()
      ensures Blocks == old(Blocks)[0 := old(Blocks[0])[n..]] && |Blocks[0]| == queue[0].len - queue[0].consumed
    {
      hide Flat, ChunkOwned.FilledSlice;
      FlatDropFront(Blocks, n);
      queue[0].ConsumeFront(n);
      filledLen := filledLen - n;
      Blocks := Blocks[0 := Blocks[0][n..]];
    }

    method DropEmptyFront()
      requires Shaped() && queue != [] && Blocks[0] == []
      requires |queue| > 1 ==> Blocks[|queue| - 1] != []
      modifies this
      ensures Valid() && Repr == old(Repr) && Contents() == old(Contents())
    {
      hide Flat, ChunkOwned.FilledSlice;
      FlatDropFront(Blocks, 0);
      assert Blocks[0 := Blocks[0][0..]] == Blocks;
      if |queue| > 1 {
        assert |queue[1].FilledSlice()| == queue[1].len - queue[1].consumed;
      }
      queue, Blocks := queue[1..], Blocks[1..];
    }

    /** Drops bytes of the front block, and the block with its last byte. */
    method ConsumeFront(n: nat)
      requires Valid() && queue != [] && n <= |Blocks[0]|
      modifies Repr
      ensures Valid() && Repr == old(Repr) && old(Contents()) == old(Blocks[0])[..n] + Contents()
    {
      hide Flat, ChunkOwned.FilledSlice;
      Advance(n);
      if queue[0].consumed == queue[0].len {
        DropEmptyFront();
      }
    }

    /** The front block leaves with all that was still buffered of it. */
    method DropFront()
      requires Valid() && queue != []
      modifies this
      ensures Valid() && Repr == old(Repr) && Blocks == old(Blocks)[1..]
      ensures old(Contents()) == old(Blocks)[0] + Contents()
    {
      hide Flat, ChunkOwned.FilledSlice;
      FlatSplitFront(Blocks);
      assert |Blocks[0]| == queue[0].FilledLen() by { queue[0].Lengths(); }
      if |queue| > 1 {
        queue[1].Lengths();
      }
      filledLen := filledLen - queue[0].FilledLen();
      queue, Blocks := queue[1..], Blocks[1..];
    }

    /** The front block as a view, which starts at the block's first byte: it is what was still
        buffered of that block exactly when none of it had been consumed. */
    method PopFront() returns (r: Option<ChunkView>)
      requires Valid()
      modifies this
      ensures Valid() && Repr == old(Repr)
      ensures r.None? <==> old(Blocks) == []
      ensures r.None? ==> Contents() == old(Contents())
      ensures r.Some? ==>
                && fresh(r.value) && r.value.Valid() && Blocks == old(Blocks)[1..]
                && old(Contents()) == old(Blocks)[0] + Contents()
                && (r.value.Bytes() == old(Blocks)[0] <==> old(queue)[0].consumed == 0)
    {
      hide Flat, Shaped, ChunkOwned.FilledSlice;
      Sizes();
      if queue == [] {
        return None;
      }
      BlockAt(0);
      var v := queue[0].IntoView();
      DropFront();
      return Some(v);
    }

    method WriteU16(v: u16)
      requires Valid()
      modifies Repr
      ensures Valid() && fresh(Repr - old(Repr)) && Contents() == old(Contents()) + U16Bytes(v)
    {
      hide Shaped, Flat;
      WriteU8(v / 0x100);
      WriteU8(v % 0x100);
      assert U16Bytes(v) == [v / 0x100] + [v % 0x100];
    }

    method WriteU32(v: u32)
      requires Valid()
      modifies Repr
      ensures Valid() && fresh(Repr - old(Repr)) && Contents() == old(Contents()) + U32Bytes(v)
    {
      hide Shaped, Flat;
      WriteU8(v / 0x100_0000);
      WriteU8(v / 0x1_0000 % 0x100);
      WriteU8(v / 0x100 % 0x100);
      WriteU8(v % 0x100);
      assert U32Bytes(v) == [v / 0x100_0000] + [v / 0x1_0000 % 0x100] + [v / 0x100 % 0x100] + [v % 0x100];
    }
  }

  // --- Chained reader ----------------------------------------------------------------------

  lemma {:induction false} DropBytesAdd(cs: seq<Chunk>, a: nat, b: nat)
    requires NonEmpty(cs) && a + b <= |Flat(cs)|
    ensures Codec.DropBytes(Codec.DropBytes(cs, a), b) == Codec.DropBytes(cs, a + b)
  {
    if a == 0 || cs == [] {
    } else {
      assert cs == [cs[0]] + cs[1..];
      FlatCons(cs[0], cs[1..]);
      if a >= |cs[0]| {
        DropBytesAdd(cs[1..], a - |cs[0]|, b);
      } else {
        var front, rest := cs[0][a..], cs[1..];
        var ds := Codec.DropBytes(cs, a);
        assert ds == [front] + rest;
        assert ds[0] == front && ds[1..] == rest;
        if 0 < b < |front| {
          assert front[b..] == cs[0][a + b..];
        }
      }
    }
  }

  /** One view over each block, from the block's start. */
  method ViewsOf(w: ChainedChunkBufferWriter)
    returns (views: seq<ChunkView>, ghost bytes: seq<Chunk>, ghost owned: set<object>)
    requires w.Valid()
    ensures |bytes| == |views| == |w.queue| == |w.Blocks|
    ensures fresh(owned)
    ensures forall k | 0 <= k < |views| :: views[k] in owned && views[k].Valid() && views[k].Bytes() == bytes[k]
    ensures forall j, k | 0 <= j < k < |views| :: views[j] != views[k]
    ensures forall k | 0 < k < |bytes| :: bytes[k] == w.Blocks[k]
    ensures bytes != [] ==> |bytes[0]| == |w.Blocks[0]| + w.queue[0].consumed
    ensures bytes != [] && w.queue[0].consumed == 0 ==> bytes[0] == w.Blocks[0]
  {
    hide Flat, ChainedChunkBufferWriter.Shaped, ChunkOwned.FilledSlice;
    w.Sizes();
    views, bytes, owned := [], [], {};
    while |views| < |w.queue|
      invariant |bytes| == |views| <= |w.queue|
      invariant fresh(owned)
      invariant forall k | 0 <= k < |views| :: views[k] in owned && views[k].Valid() && views[k].Bytes() == bytes[k]
      invariant forall j, k | 0 <= j < k < |views| :: views[j] != views[k]
      invariant forall k | 0 < k < |bytes| :: bytes[k] == w.Blocks[k]
      invariant bytes != [] ==> |bytes[0]| == |w.Blocks[0]| + w.queue[0].consumed
      invariant bytes != [] && w.queue[0].consumed == 0 ==> bytes[0] == w.Blocks[0]
    {
      w.BlockAt(|views|);
      var v := w.queue[|views|].IntoView();
      views, bytes, owned := views + [v], bytes + [v.Bytes()], owned + {v};
    }
  }

  lemma LongerFront(cs: seq<Chunk>, ds: seq<Chunk>)
    requires |cs| == |ds| > 0 && forall k | 0 < k < |cs| :: cs[k] == ds[k]
    ensures |Flat(cs)| - |Flat(ds)| == |cs[0]| - |ds[0]|
  {
    assert cs == [cs[0]] + cs[1..] && ds == [ds[0]] + ds[1..] && cs[1..] == ds[1..];
    FlatCons(cs[0], cs[1..]);
    FlatCons(ds[0], ds[1..]);
  }

  /** The byte in front after `n` have been taken. */
  lemma NextByte(before: seq<Chunk>, n: nat)
    requires NonEmpty(before) && n < |Flat(before)|
    ensures var cs := Codec.DropBytes(before, n);
            && cs != [] && NonEmpty(cs) && Flat(cs) != [] && Flat(cs)[0] == Flat(before)[n]
            && Codec.DropBytes(cs, 1) == Codec.DropBytes(before, n + 1)
    ensures Codec.DropBytes(before, 0) == before
  {
    Codec.DropBytesFlat(before, n);
    DropBytesAdd(before, n, 1);
  }

  lemma DropFrontBytes(cs: seq<Chunk>, n: nat)
    requires cs != [] && n <= |cs[0]| && cs[0] != []
    ensures Codec.DropBytes(cs, n) == if n == |cs[0]| then cs[1..] else cs[0 := cs[0][n..]]
  {
    assert cs[0 := cs[0][n..]] == [cs[0][n..]] + cs[1..];
  }

  class ChainedChunkBufferReader {
    var chunks: seq<ChunkView>
    var len: nat
    ghost var Repr: set<object>
    ghost var Segments: seq<Chunk>  // what is left of each view

    ghost predicate Shaped()
      reads this, Repr
    {
      && this in Repr && |Segments| == |chunks| && len == |Flat(Segments)|
      && (forall i | 0 <= i < |chunks| :: chunks[i] in Repr && chunks[i].Valid() && chunks[i].Bytes() == Segments[i])
      && (forall i, j | 0 <= i < j < |chunks| :: chunks[i] != chunks[j])
    }

    /** Fit for reading. An empty segment would make the reader fail when it comes to the front. */
    ghost predicate Valid()
      reads this, Repr
    {
      Shaped() && NonEmpty(Segments)
    }

    constructor ()
      ensures Valid() && Segments == [] && fresh(Repr)
    {
      chunks, len, Segments, Repr := [], 0, [], {this};
    }

    /** A writer turned into a reader. Every block becomes a view from its first byte, so the
        bytes are the writer's exactly when nothing of its front block had been consumed. */
    constructor FromWriter(w: ChainedChunkBufferWriter)
      requires w.Valid()
      ensures fresh(Repr) && len == |w.Contents()|
      ensures Flat(Segments) == w.Contents() <==> w.queue == [] || w.queue[0].consumed == 0
      ensures Flat(Segments) == w.Contents() ==> Valid() && Segments == w.Blocks
    {
      hide Flat, ChainedChunkBufferWriter.Shaped;
      w.Sizes();
      var views, bytes, owned := ViewsOf(w);
      chunks, len, Segments := views, w.filledLen, bytes;
      Repr := {this} + owned;
      new;
      if w.queue != [] {
        LongerFront(Segments, w.Blocks);
      }
      if w.queue == [] || w.queue[0].consumed == 0 {
        assert Segments == w.Blocks;
      }
    }

    method PushBack(chunk: ChunkView)
      requires Shaped() && chunk.Valid() && chunk !in Repr
      modifies this
      ensures Shaped() && Segments == old(Segments) + [chunk.Bytes()] && Repr == old(Repr) + {chunk}
      ensures Valid() <==> old(Valid()) && chunk.Bytes() != []
    {
      hide Flat;
      FlatSnoc(Segments, chunk.Bytes());
      len := len + |chunk.Bytes()|;
      chunks, Segments, Repr := chunks + [chunk], Segments + [chunk.Bytes()], Repr + {chunk};
      assert Segments[|Segments| - 1] == chunk.Bytes();
      assert forall i | 0 <= i < |Segments| - 1 :: Segments[i] == old(Segments)[i];
    }

    /** Records that the front view has given up `n` bytes, dropping it when that was all. */
    method Advanced(n: nat)
      requires this in Repr && Segments != [] && n <= |Segments[0]| && NonEmpty(Segments)
      requires |Segments| == |chunks| && len == |Flat(Segments)|
      requires forall i | 0 <= i < |chunks| :: chunks[i] in Repr && chunks[i].Valid()
      requires chunks[0].Bytes() == Segments[0][n..]
      requires forall i | 0 < i < |chunks| :: chunks[i].Bytes() == Segments[i]
      requires forall i, j | 0 <= i < j < |chunks| :: chunks[i] != chunks[j]
      modifies this
      ensures Valid() && Segments == Codec.DropBytes(old(Segments), n) && Repr == old(Repr)
    {
      hide Flat, Codec.DropBytes;
      FlatDropFront(Segments, n);
      DropFrontBytes(Segments, n);
      len := len - n;
      if chunks[0].start == chunks[0].end {
        chunks, Segments := chunks[1..], Segments[1..];
      } else {
        Segments := Segments[0 := Segments[0][n..]];
      }
    }

    method NextU8() returns (r: Option<byte>)
      requires Valid()
      modifies Repr
      ensures Valid() && Repr == old(Repr)
      ensures r.None? <==> old(Segments) == []
      ensures r.None? ==> Segments == []
      ensures r.Some? ==> Flat(old(Segments)) != [] && r.value == Flat(old(Segments))[0]
                          && Segments == Codec.DropBytes(old(Segments), 1)
    {
      hide Flat, Codec.DropBytes;
      if chunks == [] {
        return None;
      }
      Codec.FrontChunk(Segments);
      r := chunks[0].NextU8();
      Advanced(1);
    }

    method NextChunk(maxLen: nat) returns (r: Option<ChunkView>)
      requires Valid()
      modifies Repr
      ensures Valid() && Repr == old(Repr)
      ensures r.None? <==> old(Segments) == []
      ensures r.None? ==> Segments == []
      ensures r.Some? ==>
                var n := if maxLen < |old(Segments)[0]| then maxLen else |old(Segments)[0]|;
                && fresh(r.value) && r.value.Valid() && r.value.Bytes() == old(Segments)[0][..n]
                && Segments == Codec.DropBytes(old(Segments), n)
    {
      hide Flat, Codec.DropBytes;
      if chunks == [] {
        return None;
      }
      r := chunks[0].NextChunk(maxLen);
      Advanced(|r.value.Bytes()|);
    }

    method NextU16() returns (r: Option<u16>)
      requires Valid()
      modifies Repr
      ensures Valid() && Repr == old(Repr)
      ensures r.None? <==> |Flat(old(Segments))| < 2
      ensures r.None? ==> Segments == old(Segments)
      ensures r.Some? ==>
                r.value == U16FromBytes(Flat(old(Segments))[..2]) && Segments == Codec.DropBytes(old(Segments), 2)
    {
      hide Flat, Codec.DropBytes;
      ghost var before := Segments;
      if len < 2 {
        return None;
      }
      NextByte(before, 0);
      NextByte(before, 1);
      var v1 := NextU8();
      var v2 := NextU8();
      return Some(U16FromBytes([v1.value, v2.value]));
    }

    method NextU32() returns (r: Option<u32>)
      requires Valid()
      modifies Repr
      ensures Valid() && Repr == old(Repr)
      ensures r.None? <==> |Flat(old(Segments))| < 4
      ensures r.None? ==> Segments == old(Segments)
      ensures r.Some? ==>
                r.value == U32FromBytes(Flat(old(Segments))[..4]) && Segments == Codec.DropBytes(old(Segments), 4)
    {
      hide Flat, Codec.DropBytes;
      ghost var before := Segments;
      if len < 4 {
        return None;
      }
      NextByte(before, 0);
      NextByte(before, 1);
      NextByte(before, 2);
      NextByte(before, 3);
      var v1 := NextU8();
      var v2 := NextU8();
      var v3 := NextU8();
      var v4 := NextU8();
      assert Flat(before)[..4] == [v1.value, v2.value, v3.value, v4.value];
      return Some(U32FromBytes([v1.value, v2.value, v3.value, v4.value]));
    }
  }
}
