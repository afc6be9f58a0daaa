/** What one head guarantees over every run against any peer and any user. */
module HeadGuarantees {
  import opened Wire
  import opened StreamModel
  import opened StreamProofs

  /** The sender never overspends: what is left of the window is exactly the initial one plus all
      credit received minus all data taken from the user, so the subtraction never saturates. */
  lemma {:induction false} NeverOverspends(opener: bool, ops: seq<Op>)
    requires LegalRun(opener, ops)
    ensures var h := Execute(opener, ops);
            && h.s.send == INITIAL_WINDOW + Credit(Received(h)) - |Bytes(Emitted(h))|
            && Bytes(Emitted(h)) + Flat(h.s.up) == h.written
  {
    hide Execute, LegalRun, Emitted, Received;
    RunInv(opener, ops);
  }

  /** Credit for received bytes is returned exactly, in updates that always fit the wire. */
  lemma {:induction false} CreditReturned(opener: bool, ops: seq<Op>)
    requires LegalRun(opener, ops)
    ensures var h := Execute(opener, ops);
            && h.s.recv + Credit(Emitted(h)) == INITIAL_WINDOW + |Bytes(Received(h))|
            && h.s.recv <= 126981
            && Emitted(h) != [] && DeltaOf(Emitted(h)[0]) == INITIAL_WINDOW
            && forall i | 1 <= i < |Emitted(h)| :: DeltaOf(Emitted(h)[i]) <= MAX_DELTA
  {
    hide Execute, LegalRun, Bytes, Credit, Received, Emitted;
    RunInv(opener, ops);
    var xs := Emitted(Execute(opener, ops));
    forall i | 1 <= i < |xs| ensures DeltaOf(xs[i]) <= MAX_DELTA {
      assert Plain(xs[i]);
    }
  }

  /** Every data header is followed at once by its one chunk, of the announced size, between one
      byte and a full chunk. */
  lemma {:induction false} HeadersHaveTheirChunk(opener: bool, ops: seq<Op>)
    requires LegalRun(opener, ops)
    ensures var h := Execute(opener, ops); Paired(h.popped + h.s.outs)
  {
    hide Execute, LegalRun, Bytes, Credit, Received, Emitted, Paired;
    RunInv(opener, ops);
  }

  /** What reaches the user's channel is a prefix of what the peer sent, all of it while the user
      is there. */
  lemma {:induction false} DeliversInOrder(opener: bool, ops: seq<Op>)
    requires LegalRun(opener, ops)
    ensures var h := Execute(opener, ops);
            && Flat(h.s.down) <= Bytes(Received(h))
            && (!h.s.userGone ==> Flat(h.s.down) == Bytes(Received(h)))
  {
    hide Execute, LegalRun, Bytes, Credit, Received, Emitted, Flat;
    RunInv(opener, ops);
  }

  // --- Half-close --------------------------------------------------------------------------

  lemma {:induction false} FillGrows(s: Stream)
    ensures s.outs <= Fill(s).outs
    decreases |s.up|
  {
    if s.send < CHUNK_CAPACITY || s.up == [] {
    } else {
      FillGrows(TakeChunk(s));
    }
  }

  lemma InputGrows(s: Stream, e: StreamEvent)
    requires OnInput(s, e).Ok?
    ensures s.outs <= OnInput(s, e).value.outs
  {
    hide HandleFlags;
    if e.DataChunk? {
      ChunkEffect(s, e.chunk);
    } else {
      FlagsState(s, e.flags);
    }
  }

  lemma MoreEmitted(h: History, h': History)
    requires h.popped + h.s.outs <= h'.popped + h'.s.outs
    ensures Emitted(h) <= Emitted(h')
  {
    var es, es' := h.popped + h.s.outs, h'.popped + h'.s.outs;
    assert es' == es + es'[|es|..];
    FlatMapConcat(ItemsOf, es, es'[|es|..]);
  }

  lemma Popped(popped: seq<StreamEvent>, outs: seq<StreamEvent>)
    requires outs != []
    ensures (popped + [outs[0]]) + outs[1..] == popped + outs
  {
  }

  lemma PollGrows(h: History)
    ensures h.popped + h.s.outs <= Step(h, Poll).popped + Step(h, Poll).s.outs
  {
    hide Fill;
    if h.s.outs != [] {
      Popped(h.popped, h.s.outs);
    } else if h.s.local || h.s.remote {
      FillGrows(h.s);
      var outs := Fill(h.s).outs;
      if outs != [] {
        Popped(h.popped, outs);
      }
    }
  }

  /** Output is never taken back. */
  lemma StepGrows(h: History, op: Op)
    ensures Emitted(h) <= Emitted(Step(h, op))
  {
    hide PollNext, OnInput, Emitted;
    match op
    case Input(e) =>
      if OnInput(h.s, e).Ok? {
        InputGrows(h.s, e);
      }
      MoreEmitted(h, Step(h, op));
    case Poll =>
      PollGrows(h);
      MoreEmitted(h, Step(h, op));
    case _ =>
      MoreEmitted(h, Step(h, op));
  }

  lemma {:induction false} RunGrows(opener: bool, ops: seq<Op>, k: nat)
    requires k <= |ops|
    ensures Emitted(Execute(opener, ops[..k])) <= Emitted(Execute(opener, ops))
    decreases |ops|
  {
    hide Emitted, Step;
    if k < |ops| {
      var front := ops[..|ops| - 1];
      assert front[..k] == ops[..k];
      RunGrows(opener, front, k);
      StepGrows(Execute(opener, front), ops[|ops| - 1]);
    } else {
      assert ops[..k] == ops;
    }
  }

  lemma LegalPrefix(opener: bool, ops: seq<Op>, k: nat)
    requires k <= |ops| && LegalRun(opener, ops)
    ensures LegalRun(opener, ops[..k])
  {
    hide Execute, Legal;
    assert forall j | 0 <= j < k :: ops[..k][..j] == ops[..j];
  }

  /** A head sends at most one FIN, its local half is closed exactly from then on, and it never
      reopens. */
  lemma FinIsFinal(opener: bool, ops: seq<Op>, k: nat)
    requires k <= |ops| && LegalRun(opener, ops)
    ensures var (early, late) := (Execute(opener, ops[..k]), Execute(opener, ops));
            && (!early.s.local ==> !late.s.local)
            && late.s.local == !HasFin(Emitted(late))
            && forall i, j | 0 <= i < j < |Emitted(late)| ::
                 !(FlagsOf(Emitted(late)[i]).fin && FlagsOf(Emitted(late)[j]).fin)
  {
    hide Execute, LegalRun, Emitted, Received, Bytes, Credit;
    LegalPrefix(opener, ops, k);
    RunInv(opener, ops[..k]);
    RunInv(opener, ops);
    RunGrows(opener, ops, k);
    var xs, ys := Emitted(Execute(opener, ops[..k])), Emitted(Execute(opener, ops));
    if HasFin(xs) {
      var i :| 0 <= i < |xs| && FlagsOf(xs[i]).fin;
      assert FlagsOf(ys[i]).fin;
    }
  }

  /** No data follows the FIN, if the user makes no empty write and the peer sends no ACK after
      a RST. */
  lemma {:induction false} NoDataAfterFin(opener: bool, ops: seq<Op>)
    requires LegalRun(opener, ops)
    requires !Execute(opener, ops).emptyWrites && NoAckAfterRst(Received(Execute(opener, ops)))
    ensures Quiet(Emitted(Execute(opener, ops)))
  {
    hide Execute, LegalRun, Emitted, Received, Quiet, NoAckAfterRst, Bytes, Credit;
    RunInv(opener, ops);
  }

  /** Some nonempty chunk waits behind the close, in the state or in the channel, and there is
      credit enough for the chunks before it and a full one more. */
  predicate Strays(s: Stream) {
    exists k | 0 <= k < |s.up| ::
      s.up[k] != [] && (!s.local || [] in s.up[..k]) && |Flat(s.up[..k])| + CHUNK_CAPACITY <= s.send
  }

  /** The same, followed along the loop that fills the output. */
  predicate WillStray(s: Stream)
    decreases |s.up|
  {
    s.send >= CHUNK_CAPACITY && s.up != [] && ((!s.local && s.up[0] != []) || WillStray(TakeChunk(s)))
  }

  predicate ChunksFit(s: Stream) {
    forall i | 0 <= i < |s.up| :: |s.up[i]| <= CHUNK_CAPACITY
  }

  /** One chunk further, the same place is one chunk nearer. */
  lemma NextPlace(s: Stream, k: nat)
    requires ChunksFit(s) && s.send >= CHUNK_CAPACITY && k < |s.up| - 1
    ensures var t := TakeChunk(s);
            && ChunksFit(t) && t.up == s.up[1..] && t.up[k] == s.up[k + 1]
            && (!t.local || [] in t.up[..k] <==> !s.local || [] in s.up[..k + 1])
            && |Flat(s.up[..k + 1])| == |s.up[0]| + |Flat(t.up[..k])| && t.send == s.send - |s.up[0]|
  {
    var t := TakeChunk(s);
    assert s.up[..k + 1] == [s.up[0]] + t.up[..k];
    FlatCons(s.up[0], t.up[..k]);
  }

  lemma FlatNothing()
    ensures Flat([]) == []
  {
  }

  lemma TakenShape(s: Stream)
    requires ChunksFit(s) && s.up != []
    ensures ChunksFit(TakeChunk(s)) && TakeChunk(s).up == s.up[1..]
  {
  }

  lemma {:induction false} StraysIsLoop(s: Stream)
    requires ChunksFit(s)
    ensures WillStray(s) <==> Strays(s)
    decreases |s.up|
  {
    hide TakeChunk, FlatMap;
    if s.send < CHUNK_CAPACITY || s.up == [] {
    } else {
      var t := TakeChunk(s);
      TakenShape(s);
      StraysIsLoop(t);
      if Strays(t) {
        var k :| 0 <= k < |t.up| && t.up[k] != [] && (!t.local || [] in t.up[..k])
                 && |Flat(t.up[..k])| + CHUNK_CAPACITY <= t.send;
        NextPlace(s, k);
        assert s.up[k + 1] != [];
      }
      if Strays(s) {
        var k :| 0 <= k < |s.up| && s.up[k] != [] && (!s.local || [] in s.up[..k])
                 && |Flat(s.up[..k])| + CHUNK_CAPACITY <= s.send;
        if k > 0 {
          NextPlace(s, k - 1);
          assert t.up[k - 1] != [];
        }
      }
      if !s.local && s.up[0] != [] {
        assert s.up[..0] == [] && |Flat(s.up[..0])| == 0 by { FlatNothing(); }
      }
    }
  }

  lemma DataBehindFin(xs: seq<Item>, ys: seq<Item>)
    requires HasFin(xs) && ys != [] && IsData(ys[0])
    ensures !Quiet(xs + ys)
  {
    var i :| 0 <= i < |xs| && FlagsOf(xs[i]).fin;
    var zs := xs + ys;
    assert FlagsOf(zs[i]).fin && IsData(zs[|xs|]);
  }

  lemma NotQuietGrows(xs: seq<Item>, ys: seq<Item>)
    requires xs <= ys && !Quiet(xs)
    ensures !Quiet(ys)
  {
    var i, j :| 0 <= i < j < |xs| && FlagsOf(xs[i]).fin && IsData(xs[j]);
    assert FlagsOf(ys[i]).fin && IsData(ys[j]);
  }

  lemma FillEmits(h: History)
    ensures Emitted(h) <= Emitted(h.(s := Fill(h.s)))
  {
    hide Fill;
    FillGrows(h.s);
    var more := Fill(h.s).outs[|h.s.outs|..];
    assert h.popped + Fill(h.s).outs == (h.popped + h.s.outs) + more;
    FlatMapConcat(ItemsOf, h.popped + h.s.outs, more);
  }

  lemma SameEmitted(h: History)
    requires h.s.up != []
    ensures Emitted(h.(s := h.s.(up := h.s.up[1..]))) == Emitted(h)
  {
  }

  lemma LocalIsNoFin(h: History)
    requires ShapeInv(h)
    ensures h.s.local == !HasFin(Emitted(h))
  {
  }

  lemma QuietWithout(xs: seq<Item>, ys: seq<Item>)
    requires !HasFin(xs) && forall i | 0 <= i < |ys| :: !FlagsOf(ys[i]).fin
    ensures Quiet(xs + ys)
  {
    var zs := xs + ys;
    forall i | 0 <= i < |zs| ensures !FlagsOf(zs[i]).fin {
      assert i >= |xs| ==> zs[i] == ys[i - |xs|];
    }
  }

  lemma {:induction false} FillLoopQuiet(h: History)
    requires CapsInv(h) && CreditInv(h) && ShapeInv(h) && Quiet(Emitted(h))
    ensures Quiet(Emitted(h.(s := Fill(h.s)))) <==> !WillStray(h.s)
    decreases |h.s.up|
  {
    hide Emitted, CreditInv, ShapeInv, Quiet;
    if h.s.send < CHUNK_CAPACITY {
    } else {
      if h.s.up != [] {
        var taken := h.(s := TakeChunk(h.s));
        TakeChunkCredit(h);
        TakeChunkShape(h);
        if h.s.up[0] != [] {
          EmitsData(h, h.s.up[0]);
          var more := [Head(Data(NO_FLAGS, |h.s.up[0]|))] + ItemsOf(DataChunk(h.s.up[0]));
          assert Emitted(taken) == Emitted(h) + more;
          LocalIsNoFin(h);
          if h.s.local {
            QuietWithout(Emitted(h), more);
            FillLoopQuiet(taken);
          } else {
            DataBehindFin(Emitted(h), more);
            FillEmits(taken);
            NotQuietGrows(Emitted(taken), Emitted(taken.(s := Fill(taken.s))));
          }
        } else {
          SameEmitted(h);
          CloseLocalQuiet(h.(s := h.s.(up := h.s.up[1..])));
          FillLoopQuiet(taken);
        }
      } else {
        CloseLocalQuiet(h);
      }
    }
  }

  lemma FillStaysQuiet(h: History)
    requires CapsInv(h) && CreditInv(h) && ShapeInv(h) && Quiet(Emitted(h))
    ensures Quiet(Emitted(h.(s := Fill(h.s)))) <==> !Strays(h.s)
  {
    hide Emitted, CreditInv, ShapeInv, Quiet, Fill, Strays, WillStray;
    FillLoopQuiet(h);
    StraysIsLoop(h.s);
  }

  /** A poll of the head would fill the output, and stray. */
  predicate StraysAt(s: Stream) {
    s.outs == [] && (s.local || s.remote) && Strays(s)
  }

  lemma PoppedOut(h: History)
    requires h.s.outs != [] || (!h.s.local && !h.s.remote)
    ensures Emitted(Step(h, Poll)) == Emitted(h)
  {
    if h.s.outs != [] {
      assert (h.popped + [h.s.outs[0]]) + h.s.outs[1..] == h.popped + h.s.outs;
    }
  }

  lemma PolledOut(h: History)
    requires h.s.outs == [] && (h.s.local || h.s.remote)
    ensures Emitted(Step(h, Poll)) == Emitted(h.(s := Fill(h.s)))
  {
    hide Fill;
    var outs := Fill(h.s).outs;
    if outs != [] {
      assert (h.popped + [outs[0]]) + outs[1..] == h.popped + outs;
    }
  }

  lemma PollQuiet(h: History)
    requires Inv(h) && Quiet(Emitted(h))
    ensures Quiet(Emitted(Step(h, Poll))) <==> !StraysAt(h.s)
  {
    hide Emitted, Quiet, Fill, Strays, Step, CapsInv, CreditInv, DataInv, ShapeInv;
    hide PairedInv, DeliveryInv, CloseInv, SealInv;
    if h.s.outs == [] && (h.s.local || h.s.remote) {
      FillStaysQuiet(h);
      PolledOut(h);
    } else {
      PoppedOut(h);
    }
  }

  lemma SameOutputQuiet(h: History, h': History)
    requires h.popped + h.s.outs == h'.popped + h'.s.outs
    ensures Emitted(h) == Emitted(h')
  {
  }

  lemma ChunkQuiet(h: History, s: Stream, n: nat)
    requires Quiet(Emitted(h)) && s.outs == MarkReceived(h.s, n).outs
    ensures Quiet(Emitted(h.(s := s)))
    ensures forall received :: Quiet(Emitted(h.(s := s, received := received)))
  {
    hide Quiet, Emitted;
    if s.outs == h.s.outs {
      SameOutputQuiet(h, h.(s := s));
    } else {
      var e := s.outs[|h.s.outs|];
      Emits(h, s, e);
      QuietUpdate(Emitted(h), e);
    }
    forall received ensures Quiet(Emitted(h.(s := s, received := received))) {
      SameOutputQuiet(h.(s := s), h.(s := s, received := received));
    }
  }

  lemma FlagsQuiet(h: History, e: StreamEvent)
    requires Quiet(Emitted(h)) && !e.DataChunk? && OnInput(h.s, e).Ok?
    ensures Quiet(Emitted(Step(h, Input(e))))
  {
    hide Quiet, Emitted, HandleFlags;
    FlagsState(h.s, e.flags);
    var h' := Step(h, Input(e));
    if e.flags.rst {
      CloseLocalQuiet(h);
      SameOutputQuiet(h.(s := CloseLocal(h.s)), h');
    } else {
      SameOutputQuiet(h, h');
    }
  }

  /** What comes in adds nothing but window updates to what goes out. */
  lemma InputQuiet(h: History, e: StreamEvent)
    requires Quiet(Emitted(h))
    ensures Quiet(Emitted(Step(h, Input(e))))
  {
    hide Emitted, Quiet, OnInput;
    if OnInput(h.s, e).Ok? {
      var s := OnInput(h.s, e).value;
      if e.DataChunk? {
        ChunkEffect(h.s, e.chunk);
        ChunkQuiet(h, s, |e.chunk|);
      } else {
        FlagsQuiet(h, e);
      }
    }
  }

  lemma UserQuiet(h: History, op: Op)
    requires op.Write? || op.CloseUser? || op.DropUser?
    ensures Emitted(Step(h, op)) == Emitted(h)
  {
  }

  lemma StepQuiet(h: History, op: Op)
    requires Inv(h)
    ensures Quiet(Emitted(Step(h, op))) <==> Quiet(Emitted(h)) && (op.Poll? ==> !StraysAt(h.s))
  {
    hide Emitted, Quiet, Step, StraysAt, Inv;
    StepGrows(h, op);
    if !Quiet(Emitted(h)) {
      NotQuietGrows(Emitted(h), Emitted(Step(h, op)));
    } else if op.Poll? {
      PollQuiet(h);
    } else if op.Input? {
      InputQuiet(h, op.event);
    } else {
      UserQuiet(h, op);
    }
  }

  lemma BirthQuiet(opener: bool)
    ensures Quiet(Emitted(Birth(opener)))
  {
    var h := Birth(opener);
    assert h.popped + h.s.outs == [] + [h.s.outs[0]];
    AppendEvent([], h.s.outs[0]);
    assert Emitted(h) == [Head(h.s.outs[0])];
  }

  /** Over every run, no data follows the FIN exactly when no poll of the head ever strays: with
      the output empty and the stream not over, a nonempty chunk waits behind a close and there is
      credit for it. */
  lemma {:induction false} QuietExactlyWhen(opener: bool, ops: seq<Op>)
    requires LegalRun(opener, ops)
    ensures Quiet(Emitted(Execute(opener, ops))) <==>
              forall k | 0 <= k < |ops| && ops[k].Poll? :: !StraysAt(Execute(opener, ops[..k]).s)
  {
    hide Emitted, Quiet, Step, StraysAt, Inv, LegalRun;
    if ops == [] {
      BirthQuiet(opener);
    } else {
      var n := |ops| - 1;
      var front := ops[..n];
      LegalPrefix(opener, ops, n);
      QuietExactlyWhen(opener, front);
      RunInv(opener, front);
      StepQuiet(Execute(opener, front), ops[n]);
      assert forall k | 0 <= k < n :: front[..k] == ops[..k];
    }
  }

  lemma EmptyThenFull()
    ensures var h := Step(Step(Step(Birth(false), Poll), Write([])), Write([7]));
            && h.s.outs == [] && h.s.up == [[], [7]] && h.s.local && h.s.send == INITIAL_WINDOW
  {
    var h1 := Step(Birth(false), Poll);
    assert h1.s.outs == [] && h1.s.up == [] && h1.s.local;
    var h2 := Step(h1, Write([]));
    assert h2.s.up == [[]];
    WriteExactly(h2.s, [7]);
  }

  lemma FourSteps(ops: seq<Op>)
    requires |ops| == 4
    ensures Execute(false, ops[..3]) == Step(Step(Step(Birth(false), ops[0]), ops[1]), ops[2])
    ensures Execute(false, ops) == Step(Execute(false, ops[..3]), ops[3])
  {
    hide Step, Birth;
    assert ops[..3][..2] == ops[..2] && ops[..2][..1] == ops[..1] && ops[..1][..0] == [];
    assert Execute(false, ops[..1]) == Step(Birth(false), ops[0]);
    assert Execute(false, ops[..2]) == Step(Execute(false, ops[..1]), ops[1]);
  }

  lemma OpenIsQuiet(h: History)
    requires Inv(h) && h.s.local
    ensures CapsInv(h) && CreditInv(h) && ShapeInv(h) && Quiet(Emitted(h))
  {
    hide CreditInv, DataInv, PairedInv, DeliveryInv, CloseInv, SealInv, Emitted;
    QuietWithout(Emitted(h), []);
    assert Emitted(h) + [] == Emitted(h);
  }

  lemma FirstTwo(s: Stream)
    requires s.send >= CHUNK_CAPACITY && s.local && |s.up| >= 2 && s.up[0] == [] && s.up[1] != []
    ensures Strays(s)
  {
    assert s.up[..1] == [s.up[0]] && Flat([s.up[0]]) == [] by { FlatMapOne((c: Chunk) => c, s.up[0]); }
    assert [] in s.up[..1];
  }

  lemma StrayFill(h: History)
    requires Inv(h) && h.s.local && h.s.outs == [] && h.s.send >= CHUNK_CAPACITY
    requires |h.s.up| >= 2 && h.s.up[0] == [] && h.s.up[1] != []
    ensures !Quiet(Emitted(Step(h, Poll)))
  {
    hide Fill, Emitted, Inv, TakeChunk;
    OpenIsQuiet(h);
    assert Strays(h.s) by { FirstTwo(h.s); }
    FillStaysQuiet(h);
    PolledOut(h);
  }

  /** An empty write followed by another one: the second goes out behind the FIN. */
  lemma EmptyWriteStrays()
    ensures var ops := [Poll, Write([]), Write([7]), Poll];
            LegalRun(false, ops) && !Quiet(Emitted(Execute(false, ops)))
  {
    hide Emitted, Quiet;
    var ops := [Poll, Write([]), Write([7]), Poll];
    FourSteps(ops);
    var h3 := Execute(false, ops[..3]);
    EmptyThenFull();
    LegalPrefix(false, ops, 3);
    RunInv(false, ops[..3]);
    StrayFill(h3);
  }

  lemma {:induction false} FillTwice(s: Stream)
    ensures Fill(Fill(s)) == Fill(s)
    ensures |s.outs| <= |Fill(s).outs| && (|Fill(s).outs| == |s.outs| ==> Fill(s).local == s.local)
    ensures Fill(s).remote == s.remote
    decreases |s.up|
  {
    if s.send < CHUNK_CAPACITY || s.up == [] {
    } else {
      FillTwice(TakeChunk(s));
    }
  }

  /** A head that has nothing to say stays so until something happens to it. */
  lemma StaysAsPolled(s: Stream)
    ensures !PollNext(s).1.Ready? ==> PollNext(PollNext(s).0).1 == PollNext(s).1
  {
    hide Fill;
    FillTwice(s);
  }

  // --- The end of a head -------------------------------------------------------------------

  lemma {:induction false} OpenerKept(opener: bool, ops: seq<Op>)
    ensures Execute(opener, ops).opener == opener
  {
    hide OnInput, PollNext;
    if ops == [] {
    } else {
      OpenerKept(opener, ops[..|ops| - 1]);
    }
  }

  /** Against a conforming peer a head finishes when its FIN has been taken and either the peer's
      has arrived, or else, at an opener, nothing at all has. */
  lemma {:induction false} FinishedExactlyWhen(opener: bool, ops: seq<Op>)
    requires LegalRun(opener, ops) && GoodPeer(Execute(opener, ops))
    ensures var h := Execute(opener, ops);
            PollNext(h.s).1.Finished? <==>
              && h.s.outs == [] && HasFin(Emitted(h))
              && (HasFin(Received(h)) || (opener && Received(h) == []))
  {
    hide Execute, LegalRun, Fill, Bytes, Credit, GoodPeer, Emitted, Received;
    RunInv(opener, ops);
    OpenerKept(opener, ops);
  }

  /** So an opener whose user closes at once finishes without having heard from its peer, and
      takes nothing the peer may still send. */
  lemma EarlyCloseFinishes()
    ensures var h := Execute(true, [Poll, CloseUser, Poll]);
            LegalRun(true, [Poll, CloseUser, Poll]) && PollNext(h.s).1.Finished? && Received(h) == []
  {
    var ops := [Poll, CloseUser, Poll];
    var h1 := Step(Birth(true), Poll);
    var h2 := Step(h1, CloseUser);
    assert ops[..2] == [Poll, CloseUser] && ops[..2][..1] == [Poll] && ops[..2][..1][..0] == [];
    assert Execute(true, ops[..2][..1]) == h1;
    assert Execute(true, ops[..2]) == h2;
    assert Execute(true, ops) == Step(h2, Poll);
    assert Fill(h2.s) == CloseLocal(h2.s);
  }

  const RST := Flags(false, false, false, true)

  lemma ResetThenAcked()
    ensures var h2 := Step(Step(Birth(false), Poll), Input(WindowUpdate(RST, 0)));
            var h := Step(Step(Step(h2, Input(WindowUpdate(ACK, 0))), Write([7])), Poll);
            && h.s.outs == [] && h.s.up == [[7]] && !h.s.local && h.s.remote && h.s.send == INITIAL_WINDOW
  {
    var h1 := Step(Birth(false), Poll);
    assert h1.s.outs == [] && h1.s.up == [];
    var h2 := Step(h1, Input(WindowUpdate(RST, 0)));
    assert h2.s.outs == [WindowUpdate(FIN, 0)] && !h2.s.local && !h2.s.remote;
    var h3 := Step(h2, Input(WindowUpdate(ACK, 0)));
    assert h3.s.outs == [WindowUpdate(FIN, 0)] && !h3.s.local && h3.s.remote;
    var h4 := Step(h3, Write([7]));
    WriteExactly(h3.s, [7]);
    assert h4.s.outs == [WindowUpdate(FIN, 0)] && h4.s.up == [[7]];
  }

  lemma FiveSteps(ops: seq<Op>)
    requires |ops| == 6
    ensures Execute(false, ops[..5])
         == Step(Step(Step(Step(Step(Birth(false), ops[0]), ops[1]), ops[2]), ops[3]), ops[4])
    ensures Execute(false, ops) == Step(Execute(false, ops[..5]), ops[5])
  {
    hide Step, Birth;
    assert ops[..5][..4] == ops[..4] && ops[..4][..3] == ops[..3] && ops[..3][..2] == ops[..2];
    assert ops[..2][..1] == ops[..1] && ops[..1][..0] == [];
    assert Execute(false, ops[..1]) == Step(Birth(false), ops[0]);
    assert Execute(false, ops[..2]) == Step(Execute(false, ops[..1]), ops[1]);
    assert Execute(false, ops[..3]) == Step(Execute(false, ops[..2]), ops[2]);
    assert Execute(false, ops[..4]) == Step(Execute(false, ops[..3]), ops[3]);
  }

  lemma ReopenedFill(h: History)
    requires Inv(h) && !h.s.local && h.s.remote && h.s.outs == [] && h.s.send >= CHUNK_CAPACITY
    requires h.s.up != [] && h.s.up[0] != []
    ensures !Quiet(Emitted(Step(h, Poll)))
  {
    hide Fill, Emitted, TakeChunk, DataInv, PairedInv, DeliveryInv, CloseInv, SealInv, Quiet, CreditInv;
    if Quiet(Emitted(h)) {
      FillStaysQuiet(h);
      PolledOut(h);
    } else {
      StepGrows(h, Poll);
      NotQuietGrows(Emitted(h), Emitted(Step(h, Poll)));
    }
  }

  /** An ACK after a RST, both read before the head is polled again: the reset stream is half open
      when it is, so it is not removed, and its user's bytes go out behind the FIN. */
  lemma AckAfterRstStrays()
    ensures var ops := [Poll, Input(WindowUpdate(RST, 0)), Input(WindowUpdate(ACK, 0)), Write([7]), Poll, Poll];
            LegalRun(false, ops) && !Quiet(Emitted(Execute(false, ops)))
  {
    hide Emitted, Quiet, Step;
    var ops := [Poll, Input(WindowUpdate(RST, 0)), Input(WindowUpdate(ACK, 0)), Write([7]), Poll, Poll];
    FiveSteps(ops);
    ResetThenAcked();
    LegalPrefix(false, ops, 5);
    RunInv(false, ops[..5]);
    ReopenedFill(Execute(false, ops[..5]));
  }
}
