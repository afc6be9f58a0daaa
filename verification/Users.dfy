/** Users and a session together: what a call on a handle does is a step of the session's state, and
    a poll of the session leaves the handles to their users. */
module Users {
  import opened Wire
  import opened StreamModel
  import opened SessionModel
  import opened Streams
  import opened Sessions
  import T = Transport

  /** A write is the model's write step; one that would block changes nothing. */
  method Write(session: YamuxSession, stream: YamuxStream, buf: seq<byte>, ready: bool) returns (r: WriteResult)
    requires session.Valid() && session.Joined(stream)
    modifies stream`written, stream.tx`log
    ensures session.Valid() && session.Joined(stream) && stream.State() == old(stream.State())
    ensures var l := User(stream.id, Op.Write(buf));
            && Enabled(old(session.State()), l)
            && session.State() == if r.WouldBlock? then old(session.State()) else Do(old(session.State()), l)
    ensures r.Wrote? ==>
              r.n == (if |buf| < 4090 then |buf| else 4090) && stream.tx.log == old(stream.tx.log) + [buf[..r.n]]
    ensures r.BrokenPipe? <==> old(session.State()).streams[stream.id].upClosed
  {
    hide YamuxSession.Valid, YamuxSession.State, HeadMap.Valid, HeadMap.State, T.YamuxTransport.Valid;
    ghost var before, head := session.State(), session.streams.heads[stream.id];
    session.HeadOf(stream.id);
    r := stream.PollWrite(buf, ready);
    session.OneHead(stream.id);
    if r.Wrote? {
      assert head.rx.log[head.taken..] == old(head.rx.log[head.taken..]) + [buf[..r.n]];
    }
    assert before.streams[stream.id := before.streams[stream.id]] == before.streams;
  }

  /** Closing is the model's closing step. */
  method Close(session: YamuxSession, stream: YamuxStream)
    requires session.Valid() && session.Joined(stream)
    modifies stream.tx`senderGone
    ensures session.Valid() && session.Joined(stream) && stream.State() == old(stream.State())
    ensures Enabled(old(session.State()), User(stream.id, CloseUser))
    ensures session.State() == Do(old(session.State()), User(stream.id, CloseUser))
  {
    hide YamuxSession.Valid, YamuxSession.State, HeadMap.Valid, HeadMap.State, T.YamuxTransport.Valid;
    session.HeadOf(stream.id);
    stream.PollClose();
    session.OneHead(stream.id);
  }

  /** Dropping the handle is the model's dropping step. */
  method Drop(session: YamuxSession, stream: YamuxStream)
    requires session.Valid() && session.Joined(stream)
    modifies stream.tx`senderGone, stream.rx`receiverGone
    ensures session.Valid()
    ensures Enabled(old(session.State()), User(stream.id, DropUser))
    ensures session.State() == Do(old(session.State()), User(stream.id, DropUser))
  {
    hide YamuxSession.Valid, YamuxSession.State, HeadMap.Valid, HeadMap.State, T.YamuxTransport.Valid;
    session.HeadOf(stream.id);
    stream.Drop();
    session.OneHead(stream.id);
  }

  /** A read is the model's reading step: it moves the handle over what the session has put into
      its channel, and nothing else. */
  method Read(session: YamuxSession, stream: YamuxStream, buf: array<byte>) returns (r: ReadResult)
    requires session.Valid() && session.Joined(stream)
    requires buf !in session.streams.Owned && buf !in session.transport.Repr()
    modifies stream, buf
    ensures session.Valid() && session.Joined(stream) && session.State() == old(session.State())
    ensures stream.id in old(session.State()).streams
    ensures var st := old(session.State()).streams[stream.id];
            (stream.State(), r) == PollRead(old(stream.State()), st.down, st.tx, buf.Length)
    ensures r.Got? ==> |r.bytes| <= buf.Length && buf[..|r.bytes|] == r.bytes
  {
    hide YamuxSession.Valid, YamuxSession.State, HeadMap.Valid, HeadMap.State, T.YamuxTransport.Valid;
    session.HeadOf(stream.id);
    ghost var before := session.State();
    r := stream.PollRead(buf);
    session.OneHead(stream.id);
    assert before.streams[stream.id := before.streams[stream.id]] == before.streams;
  }

  /** A poll of the session does not move a handle; the handle stays joined to its head, or both
      its channels tell that the head is gone. */
  method Poll(session: YamuxSession, stream: YamuxStream) returns (r: Outcome, ghost ls: seq<Label>)
    requires session.Valid() && session.Draining.None? && session.At.Resting? && session.Joined(stream)
    modifies session`outQueue, session`Draining, session`At
    modifies session.streams, session.streams.Owned, session.transport.Repr()
    ensures session.Valid() && Perform(old(session.State()), ls).Some?
    ensures !r.Ended? ==> Perform(old(session.State()), ls) == Some(session.State())
    ensures unchanged(stream) && stream.State() == old(stream.State())
    ensures session.Joined(stream)
         || (stream.id !in session.streams.heads && stream.tx.receiverGone && stream.rx.senderGone)
  {
    hide YamuxSession.Valid, YamuxSession.State, HeadMap.Valid, HeadMap.State, T.YamuxTransport.Valid;
    hide YamuxStream.State, YamuxStream.Valid, YamuxSession.Exchanged, Perform;
    ghost var asked;
    r, ls, asked := session.PollNext();
  }
}
