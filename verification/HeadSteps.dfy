/** What a head says and tells its user, exactly: one fill, one poll, and the effect of whole runs. */
module HeadSteps {
  import opened Wire
  import opened StreamModel
  import opened StreamProofs
  import HG = HeadGuarantees

  // --- Filling the output ------------------------------------------------------------------

  /** The frames one chunk becomes; an empty one only closes. */
  function FramesOf(c: Chunk): seq<StreamEvent> {
    if c == [] then [] else [Data(NO_FLAGS, |c| % 0x1_0000_0000), DataChunk(c)]
  }

  lemma FramesCons(c: Chunk, cs: seq<Chunk>)
    ensures FlatMap(FramesOf, [c] + cs) == FramesOf(c) + FlatMap(FramesOf, cs)
  {
    FlatMapConcat(FramesOf, [c], cs);
    FlatMapOne(FramesOf, c);
  }

  lemma TakenIs(s: Stream)
    requires s.up != [] && |s.up[0]| <= s.send
    ensures var t := TakeChunk(s);
            && t.up == s.up[1..] && t.send == s.send - |s.up[0]| && t.local == (s.local && s.up[0] != [])
            && t.upClosed == s.upClosed
            && t.outs == s.outs + FramesOf(s.up[0]) + (if s.up[0] == [] && s.local then [WindowUpdate(FIN, 0)] else [])
  {
  }

  lemma {:induction false} StopsAtOnce(s: Stream)
    requires s.send < CHUNK_CAPACITY || s.up == []
    ensures Fill(s) == if s.send >= CHUNK_CAPACITY && s.upClosed then CloseLocal(s) else s
  {
  }

  /** What the taking of the first `n` chunks has come to, the place of the FIN being `k`. */
  predicate Filled(s: Stream, f: Stream, n: nat, k: nat) {
    && k <= n <= |s.up| && f.up == s.up[n..]
    && f.send == s.send - |Flat(s.up[..n])|
    && var closes := s.local && ([] in s.up[..n] || (n == |s.up| && s.upClosed && f.send >= 4090));
       && f.local == (s.local && !closes)
       && (closes ==> [] !in s.up[..k] && (k < n ==> s.up[k] == []))
       && f.outs == s.outs + FlatMap(FramesOf, s.up[..k]) + (if closes then [WindowUpdate(FIN, 0)] else [])
                  + FlatMap(FramesOf, s.up[k..n])
  }

  /** Each of the first `n` chunks is taken with credit for a full one, and the next is not there or
      not covered. */
  predicate AsFarAsCredit(s: Stream, n: nat)
    requires n <= |s.up|
  {
    && (forall i | 0 <= i < n :: |Flat(s.up[..i])| + 4090 <= s.send)
    && (n < |s.up| ==> |Flat(s.up[..n])| + 4090 > s.send)
  }

  lemma FilledNone(s: Stream)
    requires s.send < CHUNK_CAPACITY || s.up == []
    ensures Filled(s, Fill(s), 0, 0) && AsFarAsCredit(s, 0)
  {
    StopsAtOnce(s);
    assert s.up[..0] == [] && s.up[0..0] == [] && Flat([]) == [] && FlatMap(FramesOf, []) == [];
    assert s.outs + [] == s.outs;
  }

  lemma FrontFlat(cs: seq<Chunk>, n: nat)
    requires n < |cs|
    ensures cs[..n + 1] == [cs[0]] + cs[1..][..n] && |Flat(cs[..n + 1])| == |cs[0]| + |Flat(cs[1..][..n])|
    ensures FlatMap(FramesOf, cs[..n + 1]) == FramesOf(cs[0]) + FlatMap(FramesOf, cs[1..][..n])
  {
    assert cs[..n + 1] == [cs[0]] + cs[1..][..n];
    FlatCons(cs[0], cs[1..][..n]);
    FramesCons(cs[0], cs[1..][..n]);
  }

  lemma CreditMore(s: Stream, n: nat)
    requires s.up != [] && |s.up[0]| <= s.send && s.send >= CHUNK_CAPACITY && n < |s.up|
    requires AsFarAsCredit(TakeChunk(s), n)
    ensures AsFarAsCredit(s, n + 1)
  {
    hide TakeChunk;
    TakenIs(s);
    assert |Flat(s.up[..0])| == 0 by {
      assert s.up[..0] == [];
    }
    forall i | 0 < i < n + 1 ensures |Flat(s.up[..i])| + 4090 <= s.send {
      FrontFlat(s.up, i - 1);
    }
    FrontFlat(s.up, n);
  }

  lemma NoFrames()
    ensures FlatMap(FramesOf, []) == [] && FramesOf([]) == []
  {
  }

  /** The first chunk is the one that closes. */
  lemma FilledClosing(s: Stream, f: Stream, n: nat, k: nat)
    requires s.up != [] && s.up[0] == [] && s.local && n < |s.up| && Filled(TakeChunk(s), f, n, k)
    ensures Filled(s, f, n + 1, 0)
  {
    hide TakeChunk, FramesOf, FlatMap;
    TakenIs(s);
    FrontFlat(s.up, n);
    var rest := s.up[1..];
    FlatMapConcat(FramesOf, rest[..k], rest[k..n]);
    assert rest[..n] == rest[..k] + rest[k..n];
    assert s.up[0..n + 1] == s.up[..n + 1] && s.up[..0] == [];
    NoFrames();
  }

  /** The first chunk is not. */
  lemma FilledOn(s: Stream, f: Stream, n: nat, k: nat)
    requires s.up != [] && |s.up[0]| <= s.send && !(s.local && s.up[0] == []) && n < |s.up|
    requires Filled(TakeChunk(s), f, n, k)
    ensures Filled(s, f, n + 1, k + 1)
  {
    hide TakeChunk, FramesOf, FlatMap;
    TakenIs(s);
    FrontFlat(s.up, n);
    FrontFlat(s.up, k);
    var rest := s.up[1..];
    assert s.up[k + 1..n + 1] == rest[k..n];
    assert [] in s.up[..n + 1] <==> s.up[0] == [] || [] in rest[..n];
  }

  lemma FilledBound(s: Stream, f: Stream, n: nat, k: nat)
    requires Filled(s, f, n, k)
    ensures n <= |s.up|
  {
  }

  /** One fill takes chunks from the front as long as there is credit for a full one, turns each into
      its header and itself, and closes where the first empty one was, or at the end. */
  lemma {:induction false} FillExactly(s: Stream) returns (n: nat, k: nat)
    requires HG.ChunksFit(s)
    ensures Filled(s, Fill(s), n, k) && AsFarAsCredit(s, n)
    decreases |s.up|
  {
    hide TakeChunk, Filled, AsFarAsCredit;
    if s.send < CHUNK_CAPACITY || s.up == [] {
      n, k := 0, 0;
      FilledNone(s);
    } else {
      HG.TakenShape(s);
      n, k := FillExactly(TakeChunk(s));
      assert n < |s.up| by { FilledBound(TakeChunk(s), Fill(s), n, k); }
      CreditMore(s, n);
      if s.local && s.up[0] == [] {
        FilledClosing(s, Fill(s), n, k);
        k := 0;
      } else {
        FilledOn(s, Fill(s), n, k);
        k := k + 1;
      }
      n := n + 1;
    }
  }

  // --- One poll ----------------------------------------------------------------------------

  /** Something the user left is to be said: bytes, or a close not yet said. */
  predicate LeftToSay(s: Stream) {
    (exists k | 0 <= k < |s.up| :: s.up[k] != []) || (s.local && (s.up != [] || s.upClosed))
  }

  lemma LeftFirst(s: Stream)
    requires s.up != []
    ensures LeftToSay(s) <==> s.up[0] != [] || s.local || LeftToSay(TakeChunk(s))
  {
    if s.up[0] == [] {
      var t := TakeChunk(s);
      assert t.up == s.up[1..];
      if k :| 0 <= k < |s.up| && s.up[k] != [] {
        assert t.up[k - 1] != [];
      }
      if k :| 0 <= k < |t.up| && t.up[k] != [] {
        assert s.up[k + 1] != [];
      }
    }
  }

  lemma LeftLast(s: Stream)
    requires s.up == []
    ensures LeftToSay(s) <==> s.local && s.upClosed
  {
  }

  lemma {:induction false} FillSpeaks(s: Stream)
    ensures Fill(s).outs != [] <==> s.outs != [] || (s.send >= 4090 && LeftToSay(s))
    decreases |s.up|
  {
    hide LeftToSay;
    if s.send < CHUNK_CAPACITY {
    } else if s.up == [] {
      assert LeftToSay(s) <==> s.local && s.upClosed by { LeftLast(s); }
    } else {
      LeftFirst(s);
      FillSpeaks(TakeChunk(s));
    }
  }

  /** What a poll answers. Queued events go first, in order; a head with both halves closed and nothing
      queued has ended; otherwise it has something to say exactly if its user left something and there
      is credit for a full chunk. */
  lemma PollExactly(s: Stream)
    ensures s.outs != [] ==> PollNext(s) == (s.(outs := s.outs[1..]), Ready(s.outs[0]))
    ensures PollNext(s).1.Finished? <==> s.outs == [] && !s.local && !s.remote
    ensures s.outs == [] ==> (PollNext(s).1.Ready? <==> (s.local || s.remote) && s.send >= 4090 && LeftToSay(s))
    ensures s.outs == [] && PollNext(s).1.Ready? ==>
              Fill(s).outs != [] && PollNext(s) == (Fill(s).(outs := Fill(s).outs[1..]), Ready(Fill(s).outs[0]))
    ensures PollNext(s).1.Blocked? ==> PollNext(s).0 == Fill(s)
    ensures PollNext(s).1.Finished? ==> PollNext(s).0 == s
  {
    hide Fill, LeftToSay;
    FillSpeaks(s);
  }

  // --- The remote half over whole runs -----------------------------------------------------

  /** A header that opens or closes the remote half. */
  predicate Turns(e: StreamEvent) {
    !e.DataChunk? && (e.flags.ack || e.flags.fin || e.flags.rst)
  }

  predicate LeavesOpen(e: StreamEvent)
    requires !e.DataChunk?
  {
    e.flags.ack && !e.flags.fin && !e.flags.rst
  }

  /** Whether the peer may still send, by the last header that said anything about it. */
  predicate Opened(opener: bool, heard: seq<StreamEvent>) {
    if heard == [] then !opener
    else if Turns(heard[|heard| - 1]) then LeavesOpen(heard[|heard| - 1])
    else Opened(opener, heard[..|heard| - 1])
  }

  /** What a user that stays is told: every payload chunk, and an empty one for each header that
      closes the remote half while it is open, or opens it itself. */
  function Told(opener: bool, heard: seq<StreamEvent>): seq<Chunk> {
    if heard == [] then []
    else
      var front, e := heard[..|heard| - 1], heard[|heard| - 1];
      Told(opener, front)
        + if e.DataChunk? then [e.chunk]
          else if (e.flags.fin || e.flags.rst) && (e.flags.ack || Opened(opener, front)) then [[]]
          else []
  }

  /** The head agrees with what it has heard. */
  predicate Agrees(h: History) {
    && h.s.remote == Opened(h.opener, h.received)
    && (if h.s.tx then h.s.down == Told(h.opener, h.received) else h.s.down <= Told(h.opener, h.received))
    && (!h.s.tx ==> h.s.userGone)
  }

  lemma OneHeard(opener: bool, heard: seq<StreamEvent>, e: StreamEvent)
    ensures Opened(opener, heard + [e])
         == (if Turns(e) then LeavesOpen(e) else Opened(opener, heard))
    ensures Told(opener, heard + [e])
         == Told(opener, heard)
              + if e.DataChunk? then [e.chunk]
                else if (e.flags.fin || e.flags.rst) && (e.flags.ack || Opened(opener, heard)) then [[]]
                else []
  {
    assert (heard + [e])[..|heard + [e]| - 1] == heard;
  }

  lemma InputAgrees(h: History, e: StreamEvent)
    requires Agrees(h)
    ensures Agrees(Step(h, Input(e)))
  {
    hide OnInput, Opened, Told;
    if OnInput(h.s, e).Ok? {
      OneHeard(h.opener, h.received, e);
      if e.DataChunk? {
        ChunkExactly(h.s, e.chunk);
      } else {
        HeaderExactly(h.s, e);
        FlagsExactly(h.s, e.flags);
      }
    }
  }

  lemma StepAgrees(h: History, op: Op)
    requires Agrees(h)
    ensures Agrees(Step(h, op)) && Step(h, op).opener == h.opener
  {
    hide OnInput, PollNext, Opened, Told;
    match op
    case Input(e) => InputAgrees(h, e);
    case Poll => PollKeeps(h.s);
    case _ =>
  }

  lemma BirthAgrees(opener: bool)
    ensures Agrees(Birth(opener))
  {
  }

  lemma {:induction false} RunAgrees(opener: bool, ops: seq<Op>)
    ensures Agrees(Execute(opener, ops)) && Execute(opener, ops).opener == opener
  {
    hide Step, Agrees;
    if ops == [] {
      assert Agrees(Birth(opener)) by { BirthAgrees(opener); }
    } else {
      RunAgrees(opener, ops[..|ops| - 1]);
      StepAgrees(Execute(opener, ops[..|ops| - 1]), ops[|ops| - 1]);
    }
  }

  lemma {:induction false} LastTurns(opener: bool, heard: seq<StreamEvent>)
    ensures forall i | 0 <= i < |heard| && Turns(heard[i]) && (forall j | i < j < |heard| :: !Turns(heard[j])) ::
              Opened(opener, heard) == LeavesOpen(heard[i])
    ensures (forall i | 0 <= i < |heard| :: !Turns(heard[i])) ==> Opened(opener, heard) == !opener
  {
    hide Turns, LeavesOpen;
    if heard == [] {
    } else {
      LastTurns(opener, heard[..|heard| - 1]);
    }
  }

  /** Against any peer and any user, the remote half is as the last accepted header with ACK, FIN or RST
      left it, open only if that was an ACK alone; before any, it is open at the accepting side. */
  lemma {:induction false} RemoteExactly(opener: bool, ops: seq<Op>)
    ensures var h := Execute(opener, ops);
            && ((forall i | 0 <= i < |h.received| :: !Turns(h.received[i])) ==> h.s.remote == !opener)
            && forall i | 0 <= i < |h.received| && Turns(h.received[i])
                          && (forall j | i < j < |h.received| :: !Turns(h.received[j])) ::
                 var f := h.received[i].flags; h.s.remote == (f.ack && !f.fin && !f.rst)
  {
    hide Execute, Turns, Opened;
    RunAgrees(opener, ops);
    LastTurns(opener, Execute(opener, ops).received);
  }

  /** And the user, while it stays, is told all it should be, in order; one that leaves has been told
      the beginning of it. */
  lemma {:induction false} ToldExactly(opener: bool, ops: seq<Op>)
    ensures var h := Execute(opener, ops);
            && (h.s.tx ==> h.s.down == Told(opener, h.received))
            && (!h.s.tx ==> h.s.userGone && h.s.down <= Told(opener, h.received))
  {
    hide Execute, Told, Opened;
    RunAgrees(opener, ops);
  }

  // --- Updates are not sent too early ------------------------------------------------------

  predicate Due(e: StreamEvent) {
    e.WindowUpdate? && !e.flags.fin ==> e.delta >= 126982
  }

  predicate AllDue(es: seq<StreamEvent>) {
    forall i | 1 <= i < |es| :: Due(es[i])
  }

  lemma DueMore(es: seq<StreamEvent>, more: seq<StreamEvent>)
    requires AllDue(es) && es != [] && forall i | 0 <= i < |more| :: Due(more[i])
    ensures AllDue(es + more)
  {
  }

  /** All a fill adds is data and a FIN. */
  lemma {:induction false} FillDue(s: Stream)
    ensures s.outs <= Fill(s).outs && forall i | |s.outs| <= i < |Fill(s).outs| :: Due(Fill(s).outs[i])
    decreases |s.up|
  {
    if s.send < CHUNK_CAPACITY || s.up == [] {
    } else {
      var t := TakeChunk(s);
      FillDue(t);
      assert forall i | |s.outs| <= i < |t.outs| :: Due(t.outs[i]);
      assert forall i | |s.outs| <= i < |t.outs| :: Fill(s).outs[i] == t.outs[i];
    }
  }

  lemma InputDue(h: History, e: StreamEvent)
    requires CreditInv(h) && Legal(h, Input(e)) && OnInput(h.s, e).Ok?
    ensures var outs := OnInput(h.s, e).value.outs;
            h.s.outs <= outs && forall i | |h.s.outs| <= i < |outs| :: Due(outs[i])
  {
    hide OnInput, HandleFlags, Emitted, Received, Bytes, Credit;
    if e.DataChunk? {
      ChunkExactly(h.s, e.chunk);
    } else {
      HeaderExactly(h.s, e);
      FlagsExactly(h.s, e.flags);
    }
  }

  lemma PollDue(h: History) returns (more: seq<StreamEvent>)
    ensures Step(h, Poll).popped + Step(h, Poll).s.outs == h.popped + h.s.outs + more
    ensures forall i | 0 <= i < |more| :: Due(more[i])
  {
    hide Fill;
    more := [];
    if h.s.outs != [] {
      HG.Popped(h.popped, h.s.outs);
    } else if h.s.local || h.s.remote {
      FillDue(h.s);
      more := Fill(h.s).outs;
      if more != [] {
        HG.Popped(h.popped, more);
      }
    }
  }

  lemma StepDue(h: History, op: Op)
    requires Inv(h) && Legal(h, op) && h.popped + h.s.outs != [] && AllDue(h.popped + h.s.outs)
    ensures Step(h, op).popped + Step(h, op).s.outs != [] && AllDue(Step(h, op).popped + Step(h, op).s.outs)
  {
    hide OnInput, PollNext, CapsInv, CreditInv, DataInv, ShapeInv, PairedInv, DeliveryInv, CloseInv, SealInv, AllDue;
    var es, h' := h.popped + h.s.outs, Step(h, op);
    match op
    case Input(e) =>
      if OnInput(h.s, e).Ok? {
        InputDue(h, e);
        var more := h'.s.outs[|h.s.outs|..];
        DueMore(es, more);
        assert h'.s.outs == h.s.outs + more && h'.popped + h'.s.outs == es + more;
      }
    case Poll =>
      var more := PollDue(h);
      DueMore(es, more);
    case _ =>
  }

  lemma {:induction false} RunDue(opener: bool, ops: seq<Op>)
    requires LegalRun(opener, ops)
    ensures var h := Execute(opener, ops); h.popped + h.s.outs != [] && AllDue(h.popped + h.s.outs)
  {
    hide Step, Inv, Legal;
    if ops == [] {
    } else {
      var n := |ops| - 1;
      HG.LegalPrefix(opener, ops, n);
      RunDue(opener, ops[..n]);
      RunInv(opener, ops[..n]);
      StepDue(Execute(opener, ops[..n]), ops[n]);
    }
  }

  /** A window update behind the first is sent only when at least 126982 bytes are to be returned. */
  lemma {:induction false} UpdatesAreDue(opener: bool, ops: seq<Op>)
    requires LegalRun(opener, ops)
    ensures var h := Execute(opener, ops);
            var es := h.popped + h.s.outs;
            && es != []
            && forall i | 1 <= i < |es| && es[i].WindowUpdate? && !es[i].flags.fin :: es[i].delta >= 126982
  {
    hide Step, LegalRun, Inv;
    RunDue(opener, ops);
    var h := Execute(opener, ops);
    assert forall i | 1 <= i < |h.popped + h.s.outs| :: Due((h.popped + h.s.outs)[i]);
  }
}
