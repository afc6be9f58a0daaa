/** The stream objects: channels, the session-driven head, and the user's handle. */
module Streams {
  import opened Wire
  import opened StreamModel

  /** A FIFO channel with everything ever sent; its receiver keeps the place it has come to. */
  class Channel {
    const id: u32  // the stream it belongs to

    var log: seq<Chunk>
    var senderGone: bool
    var receiverGone: bool

    constructor (streamId: u32)
      ensures log == [] && !senderGone && !receiverGone && id == streamId
    {
      id := streamId;
      log, senderGone, receiverGone := [], false, false;
    }

    /** Fails exactly when the receiver has been dropped. */
    method Send(c: Chunk) returns (ok: bool)
      modifies this`log
      ensures ok == !receiverGone
      ensures log == if ok then old(log) + [c] else old(log)
    {
      ok := !receiverGone;
      if ok {
        log := log + [c];
      }
    }

    /** The chunk at a place; with none there, `closed` tells whether one can still come. */
    method Poll(place: nat) returns (c: Option<Chunk>, closed: bool)
      ensures c == (if place < |log| then Some(log[place]) else None) && closed == senderGone
    {
      c, closed := if place < |log| then Some(log[place]) else None, senderGone;
    }
  }

  /** The loop that `Fill` specifies, one turn at a time. */
  lemma FillSteps(s: Stream)
    ensures s.send < CHUNK_CAPACITY ==> Fill(s) == s
    ensures s.send >= CHUNK_CAPACITY && s.up != [] ==> Fill(s) == Fill(TakeChunk(s))
    ensures s.send >= CHUNK_CAPACITY && s.up == [] ==> Fill(s) == if s.upClosed then CloseLocal(s) else s
  {
  }

  class YamuxStreamHead {
    const id: u32
    const rx: Channel
    ghost const toUser: Channel

    var tx: Channel?
    var taken: nat  // the place in `rx`
    var local: bool
    var remote: bool
    var send: nat
    var recv: nat
    var outs: seq<StreamEvent>
    var recvState: Option<nat>

    ghost predicate Valid()
      reads this, rx, toUser
    {
      && rx != toUser && taken <= |rx.log| && !rx.receiverGone
      && (tx != null ==> tx == toUser) && (toUser.senderGone <==> tx == null)
    }

    /** The state the specification speaks of. */
    ghost function State(): Stream
      reads this, rx, toUser
      requires Valid()
    {
      Stream(local, remote, send, recv, outs, recvState, tx != null,
             rx.log[taken..], rx.senderGone, toUser.log, toUser.receiverGone)
    }

    constructor (isOpener: bool, streamId: u32, down: Channel, up: Channel)
      requires up != down
      requires up.log == [] && !up.senderGone && !up.receiverGone
      requires down.log == [] && !down.senderGone && !down.receiverGone
      ensures Valid() && State() == NewStream(isOpener) && rx == up && toUser == down && id == streamId
    {
      id, rx, toUser, tx, taken := streamId, up, down, down, 0;
      local, remote := true, !isOpener;
      send, recv := INITIAL_WINDOW, 0;
      outs := [WindowUpdate(if isOpener then SYN else ACK, INITIAL_WINDOW)];
      recvState := None;
    }

    method ReleaseSender()
      requires tx != null ==> tx == toUser
      modifies this`tx, toUser`senderGone
      ensures tx == null && toUser.senderGone == (old(toUser.senderGone) || old(tx) != null)
    {
      if tx != null {
        tx.senderGone := true;
        tx := null;
      }
    }

    /** The head is dropped: both channels see it. */
    method Drop()
      requires Valid()
      modifies this`tx, rx`receiverGone, toUser`senderGone
      ensures rx.receiverGone && toUser.senderGone
    {
      rx.receiverGone := true;
      ReleaseSender();
    }

    method SendToUser(c: Chunk)
      requires Valid()
      modifies this`tx, toUser`log, toUser`senderGone
      ensures Valid() && State() == SendDown(old(State()), c)
    {
      if tx != null {
        var ok := tx.Send(c);
        if !ok {
          ReleaseSender();
        }
      }
    }

    method TryCloseLocal() returns (closed: bool)
      requires Valid()
      modifies this`local, this`outs
      ensures Valid() && State() == CloseLocal(old(State())) && closed == old(local)
    {
      closed := local;
      if local {
        local := false;
        outs := outs + [WindowUpdate(FIN, 0)];
      }
    }

    method TryCloseRemote() returns (closed: bool)
      requires Valid()
      modifies this`remote, this`tx, toUser`log, toUser`senderGone
      ensures Valid() && State() == CloseRemote(old(State())) && closed == old(remote)
    {
      closed := remote;
      if remote {
        remote := false;
        SendToUser([]);
      }
    }

    method HandleFlag(f: Flags)
      requires Valid()
      modifies this, toUser`log, toUser`senderGone
      ensures Valid() && State() == HandleFlags(old(State()), f)
      ensures remote == if f.fin || f.rst then false else old(remote) || f.ack
      ensures local == (old(local) && !f.rst)
      ensures outs == old(outs) + if f.rst && old(local) then [WindowUpdate(FIN, 0)] else []
      ensures var told := (old(remote) || f.ack) && (f.fin || f.rst) && old(tx) != null && !toUser.receiverGone;
              toUser.log == old(toUser.log) + if told then [[]] else []
    {
      hide SendDown, CloseLocal, CloseRemote;
      FlagsExactly(State(), f);
      if f.ack && !remote {
        remote := true;
      }
      if f.rst {
        var _ := TryCloseLocal();
        var _ := TryCloseRemote();
      }
      if f.fin {
        var _ := TryCloseRemote();
      }
    }

    method MarkReceivedBytes(n: nat)
      requires Valid()
      modifies this`recv, this`outs
      ensures Valid() && State() == MarkReceived(old(State()), n)
    {
      recv := recv + n;
      if recv + CHUNK_CAPACITY >= UPDATE_THRESHOLD {
        outs := outs + [WindowUpdate(NO_FLAGS, recv % 0x1_0000_0000)];
        recv := 0;
      }
    }

    method OnInput(e: StreamEvent) returns (r: Result<(), HeadError>)
      requires Valid()
      modifies this, toUser`log, toUser`senderGone
      ensures Valid()
      ensures r.Ok? ==> StreamModel.OnInput(old(State()), e) == Ok(State())
      ensures r.Err? ==> StreamModel.OnInput(old(State()), e) == Err(r.error) && State() == old(State())
      ensures r == Err(InvalidFrameType) <==>
                (e.Data? && old(recvState).Some?) || (e.DataChunk? && old(recvState).None?)
      ensures r == Err(InvalidDataChunkSize) <==>
                e.DataChunk? && old(recvState).Some? && |e.chunk| > old(recvState).value
    {
      hide HandleFlags, MarkReceived;
      match e
      case Data(flags, size) =>
        if recvState.Some? {
          return Err(InvalidFrameType);
        }
        HandleFlag(flags);
        recvState := Some(size);
        return Ok(());
      case DataChunk(c) =>
        if recvState.None? {
          return Err(InvalidFrameType);
        }
        if recvState.value < |c| {
          return Err(InvalidDataChunkSize);
        }
        recvState := Some(recvState.value - |c|);
        SendToUser(c);
        if recvState.value == 0 {
          recvState := None;
        }
        MarkReceivedBytes(|c|);
        return Ok(());
      case WindowUpdate(flags, delta) =>
        HandleFlag(flags);
        send := send + delta;
        return Ok(());
    }

    /** One chunk from the user: a frame, or the hint to close. */
    method Take(chunk: Chunk)
      requires Valid()
      modifies this`local, this`send, this`outs
      ensures Valid() && State() == TakeChunk(old(State()).(up := [chunk] + old(State()).up))
    {
      if chunk == [] {
        var _ := TryCloseLocal();
      } else {
        send := if |chunk| <= send then send - |chunk| else 0;
        outs := outs + [Data(NO_FLAGS, |chunk| % 0x1_0000_0000)];
        outs := outs + [DataChunk(chunk)];
      }
    }

    /** The gated loop that turns what the user wrote into frames. */
    method FillOuts()
      requires Valid()
      modifies this
      ensures Valid() && State() == Fill(old(State()))
    {
      hide Fill, TakeChunk;
      FillSteps(State());
      while send >= CHUNK_CAPACITY
        invariant Valid() && Fill(State()) == Fill(old(State()))
        decreases |rx.log| - taken
      {
        ghost var before := State();
        FillSteps(before);
        var c, closed := rx.Poll(taken);
        match c
        case Some(chunk) =>
          taken := taken + 1;
          assert before.up == [chunk] + rx.log[taken..];
          Take(chunk);
        case None =>
          if closed {
            var _ := TryCloseLocal();
          }
          return;
      }
      FillSteps(State());
    }

    method PollNext() returns (r: Polled)
      requires Valid()
      modifies this
      ensures Valid() && (State(), r) == StreamModel.PollNext(old(State()))
    {
      if outs != [] {
        r := Ready(outs[0]);
        outs := outs[1..];
        return;
      }
      if !local && !remote {
        return Finished;
      }
      FillOuts();
      if outs != [] {
        r := Ready(outs[0]);
        outs := outs[1..];
      } else {
        r := Blocked;
      }
    }
  }

  datatype WriteResult = Wrote(n: nat) | BrokenPipe | WouldBlock

  /** The handle the application reads from and writes to. */
  class YamuxStream {
    const id: u32
    const tx: Channel
    const rx: Channel

    var taken: nat  // the place in `rx`
    var recvChunk: Option<(Chunk, nat)>
    var written: nat
    var read: nat
    ghost var ReadLog: seq<byte>
    ghost var Eof: bool

    ghost predicate Valid()
      reads this
    {
      && tx != rx && read == |ReadLog|
      && (recvChunk.Some? ==> recvChunk.value.1 < |recvChunk.value.0|)
    }

    /** The state the specification speaks of. */
    ghost function State(): Handle
      reads this
      requires Valid()
    {
      Handle(taken, if recvChunk.Some? then recvChunk.value.0[recvChunk.value.1..] else [], ReadLog, Eof)
    }

    constructor (streamId: u32, up: Channel, down: Channel)
      requires up != down
      ensures Valid() && State() == NEW_HANDLE && tx == up && rx == down && id == streamId && written == 0
    {
      id, tx, rx, taken, recvChunk, written, read, ReadLog, Eof := streamId, up, down, 0, None, 0, 0, [], false;
    }

    /** Copies out of the chunk in hand as much as fits. */
    method CopyOut(buf: array<byte>) returns (n: nat)
      requires Valid() && recvChunk.Some?
      modifies this`recvChunk, this`read, this`ReadLog, buf
      ensures n <= buf.Length && buf[n..] == old(buf[..])[n..]
      ensures Valid() && (State(), Got(buf[..n])) == ReadRest(old(State()), buf.Length)
      ensures ReadLog == old(ReadLog) + buf[..n]
      ensures var next := old(recvChunk).value.0[old(recvChunk).value.1..];
              && buf[..n] <= next && (n == |next| || n == buf.Length) && (recvChunk.None? <==> n == |next|)
              && (recvChunk.Some? ==> recvChunk.value.0[recvChunk.value.1..] == next[n..])
    {
      var (chunk, offset) := recvChunk.value;
      n := if |chunk| - offset < buf.Length then |chunk| - offset else buf.Length;
      forall i | 0 <= i < n {
        buf[i] := chunk[offset + i];
      }
      assert buf[..n] == chunk[offset..][..n];
      recvChunk := if offset + n == |chunk| then None else Some((chunk, offset + n));
      assert chunk[offset..][n..] == chunk[offset + n..];
      read := read + n;
      ReadLog := ReadLog + buf[..n];
    }

    method PollRead(buf: array<byte>) returns (r: ReadResult)
      requires Valid()
      modifies this`taken, this`recvChunk, this`read, this`ReadLog, this`Eof, buf
      ensures Valid()
      ensures (State(), r) == StreamModel.PollRead(old(State()), rx.log, !rx.senderGone, buf.Length)
      ensures r.Broken? <==> old(recvChunk).None? && old(taken) >= |rx.log| && rx.senderGone
      ensures r.NotYet? <==> old(recvChunk).None? && old(taken) >= |rx.log| && !rx.senderGone
      ensures r.Got? ==>
                && |r.bytes| <= buf.Length && buf[..|r.bytes|] == r.bytes && ReadLog == old(ReadLog) + r.bytes
                && taken == old(taken) + (if old(recvChunk).None? then 1 else 0)
                && var next := if old(recvChunk).Some? then old(recvChunk).value.0[old(recvChunk).value.1..]
                               else rx.log[old(taken)];
                   && r.bytes <= next && (|r.bytes| == |next| || |r.bytes| == buf.Length)
                   && (recvChunk.None? <==> r.bytes == next)
                   && (recvChunk.Some? ==> recvChunk.value.0[recvChunk.value.1..] == next[|r.bytes|..])
      ensures !r.Got? ==> taken == old(taken) && recvChunk == old(recvChunk) && ReadLog == old(ReadLog)
    {
      if recvChunk.None? {
        var c, closed := rx.Poll(taken);
        if c.None? {
          return if closed then Broken else NotYet;
        }
        taken := taken + 1;
        if c.value == [] {
          Eof := true;
          return Got([]);
        }
        recvChunk := Some((c.value, 0));
        assert c.value[0..] == c.value;
      }
      var n := CopyOut(buf);
      return Got(buf[..n]);
    }

    /** `ready` is what the bounded channel's own readiness check answers. */
    method PollWrite(buf: seq<byte>, ready: bool) returns (r: WriteResult)
      requires Valid()
      modifies this`written, tx`log
      ensures Valid() && State() == old(State())
      ensures r.BrokenPipe? <==> tx.receiverGone || tx.senderGone
      ensures r.WouldBlock? <==> !ready && !tx.receiverGone && !tx.senderGone
      ensures r.Wrote? ==>
                && r.n == (if |buf| < 4090 then |buf| else 4090)
                && written == old(written) + r.n && tx.log == old(tx.log) + [buf[..r.n]]
      ensures !r.Wrote? ==> written == old(written) && tx.log == old(tx.log)
    {
      if tx.receiverGone || tx.senderGone {
        return BrokenPipe;
      }
      if !ready {
        return WouldBlock;
      }
      var n := if |buf| < CHUNK_CAPACITY then |buf| else CHUNK_CAPACITY;
      var ok := tx.Send(buf[..n]);
      written := written + n;
      return Wrote(n);
    }

    /** Half-close: what was written before is still delivered. */
    method PollClose()
      requires Valid()
      modifies tx`senderGone
      ensures Valid() && State() == old(State()) && tx.senderGone
    {
      tx.senderGone := true;
    }

    method Drop()
      requires Valid()
      modifies tx`senderGone, rx`receiverGone
      ensures Valid() && tx.senderGone && rx.receiverGone
    {
      tx.senderGone, rx.receiverGone := true, true;
    }
  }

  /** A head and the handle it serves, tied together by two new channels. */
  method NewPair(isOpener: bool, id: u32) returns (head: YamuxStreamHead, stream: YamuxStream)
    ensures fresh(head) && fresh(head.rx) && fresh(head.toUser) && fresh(stream)
    ensures head.Valid() && head.State() == NewStream(isOpener) && head.rx != head.toUser
    ensures head.id == head.rx.id == head.toUser.id == id
    ensures stream.Valid() && stream.State() == NEW_HANDLE && stream.id == id
    ensures stream.tx == head.rx && stream.rx == head.toUser
  {
    var up := new Channel(id);
    var down := new Channel(id);
    head := new YamuxStreamHead(isOpener, id, down, up);
    stream := new YamuxStream(id, up, down);
  }
}
