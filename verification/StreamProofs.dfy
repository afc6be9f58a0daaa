/** What one end of a stream keeps over every run, whatever the peer and the user do. */
module StreamProofs {
  import opened Wire
  import opened StreamModel

  predicate CapsInv(h: History) {
    forall i | 0 <= i < |h.s.up| :: |h.s.up[i]| <= CHUNK_CAPACITY && (h.s.up[i] == [] ==> h.emptyWrites)
  }

  predicate CreditInv(h: History) {
    && h.s.send + |Bytes(Emitted(h))| == INITIAL_WINDOW + Credit(Received(h))
    && h.s.recv + Credit(Emitted(h)) == INITIAL_WINDOW + |Bytes(Received(h))|
    && h.s.recv + CHUNK_CAPACITY < UPDATE_THRESHOLD
  }

  predicate DataInv(h: History) {
    Bytes(Emitted(h)) + Flat(h.s.up) == h.written
  }

  predicate ShapeInv(h: History) {
    && Emitted(h) != [] && Conforming(Emitted(h), h.opener)
    && h.s.local == !HasFin(Emitted(h))
  }

  /** Output is cut into header-and-chunk pairs. */
  predicate Paired(es: seq<StreamEvent>) {
    && (forall i | 0 <= i < |es| && es[i].Data? ::
          i + 1 < |es| && es[i + 1].DataChunk? && 1 <= |es[i + 1].chunk| == es[i].size <= CHUNK_CAPACITY)
    && (forall i | 0 <= i < |es| && es[i].DataChunk? :: 0 < i && es[i - 1].Data?)
  }

  predicate PairedInv(h: History) {
    Paired(h.popped + h.s.outs)
  }

  predicate GoodPeer(h: History) {
    Conforming(Received(h), !h.opener) && Quiet(Received(h))
  }

  predicate IsEmptyData(i: Item) {
    i.Head? && i.event.Data? && i.event.size == 0
  }

  predicate DeliveryInv(h: History) {
    && Flat(h.s.down) <= Bytes(Received(h))
    && (h.s.tx ==> Flat(h.s.down) == Bytes(Received(h)))
    && (!h.s.tx ==> h.s.userGone)
    && (h.s.recvState == Some(0) ==> exists i | 0 <= i < |Received(h)| :: IsEmptyData(Received(h)[i]))
  }

  predicate CloseInv(h: History) {
    GoodPeer(h) ==>
      && h.s.remote == ((Received(h) != [] || !h.opener) && !HasFin(Received(h)))
      && (forall i | 0 <= i < |h.s.down| && h.s.down[i] == [] ::
            i == |h.s.down| - 1 && HasFin(Received(h)) && Flat(h.s.down) == Bytes(Received(h)))
      && (h.s.tx && HasFin(Received(h)) ==> h.s.down != [] && h.s.down[|h.s.down| - 1] == [])
  }

  predicate NoAckAfterRst(xs: seq<Item>) {
    forall i, j | 0 <= i < j < |xs| && FlagsOf(xs[i]).rst :: !FlagsOf(xs[j]).ack
  }

  predicate SealInv(h: History) {
    !h.emptyWrites && NoAckAfterRst(Received(h)) ==>
      && Quiet(Emitted(h))
      && (!h.s.local ==> (h.s.up == [] && h.s.upClosed) || (!h.s.remote && HasRst(Received(h))))
  }

  predicate Inv(h: History) {
    && CapsInv(h) && CreditInv(h) && DataInv(h) && ShapeInv(h)
    && PairedInv(h) && DeliveryInv(h) && CloseInv(h) && SealInv(h)
  }

  lemma Emits(h: History, s: Stream, e: StreamEvent)
    requires s.outs == h.s.outs + [e]
    ensures var h' := h.(s := s);
            && Emitted(h') == Emitted(h) + ItemsOf(e)
            && Bytes(Emitted(h')) == Bytes(Emitted(h)) + Payload(e)
            && Credit(Emitted(h')) == Credit(Emitted(h)) + Delta(e)
  {
    assert h.popped + s.outs == (h.popped + h.s.outs) + [e];
    AppendEvent(h.popped + h.s.outs, e);
  }

  lemma BirthInv(opener: bool)
    ensures Inv(Birth(opener))
  {
    var h := Birth(opener);
    var e := h.s.outs[0];
    assert h.popped + h.s.outs == [] + [e];
    AppendEvent([], e);
    assert Emitted(h) == [Head(e)];
  }

  // --- Closing the local half --------------------------------------------------------------

  lemma CloseLocalCredit(h: History)
    requires CreditInv(h)
    ensures CreditInv(h.(s := CloseLocal(h.s)))
  {
    if h.s.local {
      Emits(h, CloseLocal(h.s), WindowUpdate(FIN, 0));
    }
  }

  lemma CloseLocalData(h: History)
    requires DataInv(h)
    ensures DataInv(h.(s := CloseLocal(h.s)))
  {
    if h.s.local {
      Emits(h, CloseLocal(h.s), WindowUpdate(FIN, 0));
    }
  }

  lemma CloseLocalShape(h: History)
    requires ShapeInv(h)
    ensures ShapeInv(h.(s := CloseLocal(h.s)))
  {
    if h.s.local {
      var h' := h.(s := CloseLocal(h.s));
      Emits(h, CloseLocal(h.s), WindowUpdate(FIN, 0));
      assert FlagsOf(Emitted(h')[|Emitted(h)|]).fin;
    }
  }

  lemma PairedUpdate(es: seq<StreamEvent>, e: StreamEvent)
    requires Paired(es) && e.WindowUpdate?
    ensures Paired(es + [e])
  {
    var es' := es + [e];
    assert forall i | 0 <= i < |es| :: es'[i] == es[i];
  }

  lemma PairedData(es: seq<StreamEvent>, c: Chunk)
    requires Paired(es) && 1 <= |c| <= CHUNK_CAPACITY
    ensures Paired(es + [Data(NO_FLAGS, |c|), DataChunk(c)])
  {
    var es' := es + [Data(NO_FLAGS, |c|), DataChunk(c)];
    assert forall i | 0 <= i < |es| :: es'[i] == es[i];
  }

  lemma CloseLocalPaired(h: History)
    requires PairedInv(h)
    ensures PairedInv(h.(s := CloseLocal(h.s)))
  {
    if h.s.local {
      assert h.popped + CloseLocal(h.s).outs == (h.popped + h.s.outs) + [WindowUpdate(FIN, 0)];
      PairedUpdate(h.popped + h.s.outs, WindowUpdate(FIN, 0));
    }
  }

  // --- Taking one chunk from the user ------------------------------------------------------

  lemma EmitsData(h: History, c: Chunk)
    requires h.s.up != [] && h.s.up[0] == c != [] && |c| <= CHUNK_CAPACITY
    ensures var h' := h.(s := TakeChunk(h.s));
            && Emitted(h') == Emitted(h) + [Head(Data(NO_FLAGS, |c|))] + ItemsOf(DataChunk(c))
            && Bytes(Emitted(h')) == Bytes(Emitted(h)) + c
            && Credit(Emitted(h')) == Credit(Emitted(h))
  {
    var d := Data(NO_FLAGS, |c|);
    var mid := h.s.(outs := h.s.outs + [d]);
    Emits(h, mid, d);
    assert TakeChunk(h.s).outs == mid.outs + [DataChunk(c)];
    Emits(h.(s := mid), TakeChunk(h.s), DataChunk(c));
  }

  lemma TakeChunkCredit(h: History)
    requires CapsInv(h) && CreditInv(h) && h.s.up != [] && h.s.send >= CHUNK_CAPACITY
    ensures CapsInv(h.(s := TakeChunk(h.s))) && CreditInv(h.(s := TakeChunk(h.s)))
  {
    var c, rest := h.s.up[0], h.s.(up := h.s.up[1..]);
    if c == [] {
      CloseLocalCredit(h.(s := rest));
    } else {
      EmitsData(h, c);
    }
  }

  lemma TakeChunkData(h: History)
    requires CapsInv(h) && DataInv(h) && h.s.up != []
    ensures DataInv(h.(s := TakeChunk(h.s)))
  {
    var c, rest := h.s.up[0], h.s.(up := h.s.up[1..]);
    assert h.s.up == [c] + rest.up;
    FlatCons(c, rest.up);
    if c == [] {
      CloseLocalData(h.(s := rest));
    } else {
      EmitsData(h, c);
    }
  }

  lemma PlainTail(xs: seq<Item>, ys: seq<Item>, opener: bool)
    requires xs != [] && Conforming(xs, opener)
    requires forall i | 0 <= i < |ys| :: Plain(ys[i]) && !FlagsOf(ys[i]).fin
    ensures Conforming(xs + ys, opener) && HasFin(xs + ys) == HasFin(xs)
  {
    var zs := xs + ys;
    forall i | 1 <= i < |zs| ensures Plain(zs[i]) {
      if i >= |xs| {
        assert zs[i] == ys[i - |xs|];
      }
    }
    forall i | |xs| <= i < |zs| ensures !FlagsOf(zs[i]).fin {
      assert zs[i] == ys[i - |xs|];
    }
    if HasFin(xs) {
      var i :| 0 <= i < |xs| && FlagsOf(xs[i]).fin;
      assert FlagsOf(zs[i]).fin;
    }
  }

  lemma TakeChunkShape(h: History)
    requires CapsInv(h) && ShapeInv(h) && h.s.up != []
    ensures ShapeInv(h.(s := TakeChunk(h.s)))
  {
    var c, rest := h.s.up[0], h.s.(up := h.s.up[1..]);
    if c == [] {
      CloseLocalShape(h.(s := rest));
    } else {
      EmitsData(h, c);
      PlainTail(Emitted(h), [Head(Data(NO_FLAGS, |c|))] + ItemsOf(DataChunk(c)), h.opener);
      assert Emitted(h.(s := TakeChunk(h.s))) == Emitted(h) + ([Head(Data(NO_FLAGS, |c|))] + ItemsOf(DataChunk(c)));
    }
  }

  lemma TakeChunkPaired(h: History)
    requires CapsInv(h) && PairedInv(h) && h.s.up != []
    ensures PairedInv(h.(s := TakeChunk(h.s)))
  {
    var c, rest := h.s.up[0], h.s.(up := h.s.up[1..]);
    if c == [] {
      CloseLocalPaired(h.(s := rest));
    } else {
      assert h.popped + TakeChunk(h.s).outs == (h.popped + h.s.outs) + [Data(NO_FLAGS, |c|), DataChunk(c)];
      PairedData(h.popped + h.s.outs, c);
    }
  }

  lemma TakeChunkSeal(h: History)
    requires CapsInv(h) && ShapeInv(h) && SealInv(h) && h.s.up != [] && (h.s.local || h.s.remote || h.emptyWrites)
    ensures SealInv(h.(s := TakeChunk(h.s)))
  {
    if !h.emptyWrites && NoAckAfterRst(Received(h)) {
      assert h.s.local;
      EmitsData(h, h.s.up[0]);
    }
  }

  // --- What polling leaves alone -----------------------------------------------------------

  lemma {:induction false} FillKeeps(s: Stream)
    ensures var f := Fill(s);
            && f.recvState == s.recvState && f.remote == s.remote && f.down == s.down
            && f.tx == s.tx && f.upClosed == s.upClosed && f.userGone == s.userGone && f.recv == s.recv
    decreases |s.up|
  {
    if s.send < CHUNK_CAPACITY || s.up == [] {
    } else {
      FillKeeps(TakeChunk(s));
    }
  }

  lemma PollKeeps(s: Stream)
    ensures var p := PollNext(s).0;
            && p.recvState == s.recvState && p.remote == s.remote && p.down == s.down
            && p.tx == s.tx && p.upClosed == s.upClosed && p.userGone == s.userGone && p.recv == s.recv
  {
    hide Fill;
    FillKeeps(s);
  }

  // --- Polling -----------------------------------------------------------------------------

  predicate Open(h: History) {
    h.s.local || h.s.remote || h.emptyWrites
  }

  /** Output does not touch what was received or delivered. */
  lemma SameInput(h: History, s: Stream)
    requires DeliveryInv(h) && CloseInv(h)
    requires s.remote == h.s.remote && s.down == h.s.down && s.tx == h.s.tx
    requires s.recvState == h.s.recvState && s.userGone == h.s.userGone
    ensures DeliveryInv(h.(s := s)) && CloseInv(h.(s := s))
  {
  }

  lemma TakeChunkInv(h: History)
    requires Inv(h) && Open(h) && h.s.up != [] && h.s.send >= CHUNK_CAPACITY
    ensures Inv(h.(s := TakeChunk(h.s))) && Open(h.(s := TakeChunk(h.s)))
  {
    hide CreditInv, DataInv, ShapeInv, PairedInv, SealInv, DeliveryInv, CloseInv;
    TakeChunkCredit(h);
    TakeChunkData(h);
    TakeChunkShape(h);
    TakeChunkPaired(h);
    TakeChunkSeal(h);
    SameInput(h, TakeChunk(h.s));
  }

  lemma FinishInv(h: History)
    requires Inv(h) && h.s.up == [] && h.s.upClosed
    ensures Inv(h.(s := CloseLocal(h.s)))
  {
    hide CreditInv, DataInv, ShapeInv, PairedInv, DeliveryInv, CloseInv;
    CloseLocalCredit(h);
    CloseLocalData(h);
    CloseLocalShape(h);
    CloseLocalPaired(h);
    SameInput(h, CloseLocal(h.s));
    if h.s.local {
      Emits(h, CloseLocal(h.s), WindowUpdate(FIN, 0));
    }
  }

  lemma {:induction false} FillInv(h: History)
    requires Inv(h) && Open(h)
    ensures Inv(h.(s := Fill(h.s)))
    decreases |h.s.up|
  {
    hide Inv;
    if h.s.send < CHUNK_CAPACITY {
    } else {
      if h.s.up != [] {
        TakeChunkInv(h);
        FillInv(h.(s := TakeChunk(h.s)));
      } else if h.s.upClosed {
        FinishInv(h);
      }
    }
  }

  lemma PopInv(h: History)
    requires Inv(h) && h.s.outs != []
    ensures Inv(h.(s := h.s.(outs := h.s.outs[1..]), popped := h.popped + [h.s.outs[0]]))
  {
    assert (h.popped + [h.s.outs[0]]) + h.s.outs[1..] == h.popped + h.s.outs;
  }

  lemma PollInv(h: History)
    requires Inv(h)
    ensures Inv(Step(h, Poll))
  {
    if h.s.outs != [] {
      PopInv(h);
    } else if h.s.local || h.s.remote {
      FillInv(h);
      var filled := h.(s := Fill(h.s));
      if filled.s.outs != [] {
        PopInv(filled);
      }
    }
  }

  // --- Input -------------------------------------------------------------------------------

  /** The part of the invariant that input reaches only through the output queue and the counters. */
  predicate OutputInv(h: History) {
    CapsInv(h) && CreditInv(h) && DataInv(h) && ShapeInv(h) && PairedInv(h)
  }

  lemma SameOutput(h: History, s: Stream)
    requires OutputInv(h)
    requires s.outs == h.s.outs && s.local == h.s.local && s.send == h.s.send && s.recv == h.s.recv && s.up == h.s.up
    ensures OutputInv(h.(s := s))
  {
  }

  lemma FlagsOutput(h: History, f: Flags)
    requires OutputInv(h)
    ensures OutputInv(h.(s := HandleFlags(h.s, f)))
  {
    hide CreditInv, DataInv, ShapeInv, PairedInv;
    var closed := if f.rst then CloseLocal(h.s) else h.s;
    CloseLocalCredit(h);
    CloseLocalData(h);
    CloseLocalShape(h);
    CloseLocalPaired(h);
    SameOutput(h.(s := closed), HandleFlags(h.s, f));
  }

  function Accept(h: History, e: StreamEvent, s: Stream): History {
    h.(s := s, received := h.received + [e])
  }

  lemma AcceptItems(h: History, e: StreamEvent, s: Stream)
    ensures var h' := Accept(h, e, s);
            && Received(h') == Received(h) + ItemsOf(e)
            && Bytes(Received(h')) == Bytes(Received(h)) + Payload(e)
            && Credit(Received(h')) == Credit(Received(h)) + Delta(e)
  {
    AppendEvent(h.received, e);
  }

  lemma HeaderCredit(h: History, e: StreamEvent, s: Stream)
    requires CreditInv(h) && !e.DataChunk?
    requires s.outs == h.s.outs && s.recv == h.s.recv && s.send == h.s.send + Delta(e)
    ensures CreditInv(Accept(h, e, s))
  {
    hide Bytes, Credit;
    AcceptItems(h, e, s);
    assert |Bytes(Received(Accept(h, e, s)))| == |Bytes(Received(h))|;
  }

  lemma OutputIgnoresReceived(h: History, s: Stream, received: seq<StreamEvent>)
    requires DataInv(h) && ShapeInv(h) && PairedInv(h)
    requires s.outs == h.s.outs && s.local == h.s.local && s.up == h.s.up
    ensures var h' := h.(s := s, received := received); DataInv(h') && ShapeInv(h') && PairedInv(h')
  {
  }

  lemma HeaderOutput(h: History, e: StreamEvent)
    requires OutputInv(h) && !e.DataChunk? && OnInput(h.s, e).Ok?
    ensures OutputInv(Accept(h, e, OnInput(h.s, e).value))
  {
    hide CreditInv, DataInv, ShapeInv, PairedInv, HandleFlags;
    FlagsOutput(h, e.flags);
    var flagged := h.(s := HandleFlags(h.s, e.flags));
    var s := OnInput(h.s, e).value;
    HeaderCredit(flagged, e, s);
    OutputIgnoresReceived(flagged, s, h.received + [e]);
  }

  /** The head with one more window update queued. */
  function Updated(h: History, n: u32): History {
    h.(s := h.s.(outs := h.s.outs + [WindowUpdate(NO_FLAGS, n)]))
  }

  lemma UpdateShape(h: History, n: u32)
    requires ShapeInv(h) && n <= MAX_DELTA
    ensures ShapeInv(Updated(h, n))
  {
    Emits(h, Updated(h, n).s, WindowUpdate(NO_FLAGS, n));
    PlainTail(Emitted(h), [Head(WindowUpdate(NO_FLAGS, n))], h.opener);
  }

  lemma UpdatePaired(h: History, n: u32)
    requires PairedInv(h)
    ensures PairedInv(Updated(h, n))
  {
    var e := WindowUpdate(NO_FLAGS, n);
    assert h.popped + Updated(h, n).s.outs == (h.popped + h.s.outs) + [e];
    PairedUpdate(h.popped + h.s.outs, e);
  }

  lemma UpdateData(h: History, n: u32)
    requires DataInv(h)
    ensures DataInv(Updated(h, n))
  {
    Emits(h, Updated(h, n).s, WindowUpdate(NO_FLAGS, n));
  }

  /** What an accepted chunk does to the head. */
  lemma ChunkEffect(s: Stream, c: Chunk)
    requires OnInput(s, DataChunk(c)).Ok?
    ensures var s' := OnInput(s, DataChunk(c)).value;
            && s'.down == SendDown(s, c).down && s'.tx == SendDown(s, c).tx && s'.recvState != Some(0)
            && s'.send == s.send && s'.local == s.local && s'.remote == s.remote
            && s'.up == s.up && s'.upClosed == s.upClosed && s'.userGone == s.userGone
            && (s'.outs, s'.recv) == (MarkReceived(s, |c|).outs, MarkReceived(s, |c|).recv)
  {
  }

  lemma ChunkCredit(h: History, c: Chunk)
    requires CreditInv(h) && |c| <= READ_BUFFER && OnInput(h.s, DataChunk(c)).Ok?
    ensures CreditInv(Accept(h, DataChunk(c), OnInput(h.s, DataChunk(c)).value))
  {
    hide OnInput;
    var s := OnInput(h.s, DataChunk(c)).value;
    ChunkEffect(h.s, c);
    AcceptItems(h, DataChunk(c), s);
    if h.s.recv + |c| + CHUNK_CAPACITY >= UPDATE_THRESHOLD {
      Emits(h, s, WindowUpdate(NO_FLAGS, h.s.recv + |c|));
    }
  }

  lemma BoundedRecv(h: History)
    requires CreditInv(h)
    ensures h.s.recv + CHUNK_CAPACITY < UPDATE_THRESHOLD
  {
  }

  lemma ChunkOutput(h: History, c: Chunk)
    requires OutputInv(h) && |c| <= READ_BUFFER && OnInput(h.s, DataChunk(c)).Ok?
    ensures OutputInv(Accept(h, DataChunk(c), OnInput(h.s, DataChunk(c)).value))
  {
    hide CreditInv, DataInv, ShapeInv, PairedInv, OnInput;
    var s := OnInput(h.s, DataChunk(c)).value;
    var total := h.s.recv + |c|;
    ChunkEffect(h.s, c);
    ChunkCredit(h, c);
    if total + CHUNK_CAPACITY >= UPDATE_THRESHOLD {
      assert total <= MAX_DELTA by { BoundedRecv(h); }
      UpdateData(h, total);
      UpdateShape(h, total);
      UpdatePaired(h, total);
      OutputIgnoresReceived(Updated(h, total), s, h.received + [DataChunk(c)]);
    } else {
      OutputIgnoresReceived(h, s, h.received + [DataChunk(c)]);
    }
  }

  // Delivery: what has gone to the user is what has come in.

  lemma SendDownFlat(s: Stream, c: Chunk)
    ensures Flat(SendDown(s, c).down) == Flat(s.down) + if s.tx && !s.userGone then c else []
  {
    FlatSnoc(s.down, c);
  }

  lemma FlagsDelivery(s: Stream, f: Flags)
    requires !s.tx ==> s.userGone
    ensures var s' := HandleFlags(s, f);
            && Flat(s'.down) == Flat(s.down) && s'.recvState == s.recvState && s'.userGone == s.userGone
            && (s'.tx ==> s.tx) && (!s'.tx ==> s'.userGone)
  {
    var acked := if f.ack then s.(remote := true) else s;
    var reset := if f.rst then CloseRemote(CloseLocal(acked)) else acked;
    SendDownFlat(CloseLocal(acked).(remote := false), []);
    SendDownFlat(reset.(remote := false), []);
  }

  lemma HeaderDelivery(h: History, e: StreamEvent)
    requires DeliveryInv(h) && !e.DataChunk? && OnInput(h.s, e).Ok?
    ensures DeliveryInv(Accept(h, e, OnInput(h.s, e).value))
  {
    hide HandleFlags;
    var h' := Accept(h, e, OnInput(h.s, e).value);
    FlagsDelivery(h.s, e.flags);
    AcceptItems(h, e, h'.s);
    if e.Data? {
      assert Received(h')[|Received(h)|] == Head(e);
    } else if h.s.recvState == Some(0) {
      var i :| 0 <= i < |Received(h)| && IsEmptyData(Received(h)[i]);
      assert IsEmptyData(Received(h')[i]);
    }
  }

  lemma ChunkDelivery(h: History, c: Chunk)
    requires DeliveryInv(h) && OnInput(h.s, DataChunk(c)).Ok?
    ensures DeliveryInv(Accept(h, DataChunk(c), OnInput(h.s, DataChunk(c)).value))
  {
    hide OnInput, MarkReceived, Flat, Bytes;
    var s := OnInput(h.s, DataChunk(c)).value;
    ChunkEffect(h.s, c);
    AcceptItems(h, DataChunk(c), s);
    SendDownFlat(h.s, c);
  }

  // Closing by the peer, when the peer is a conforming one.

  lemma ConformingPrefix(xs: seq<Item>, ys: seq<Item>, opener: bool)
    requires Conforming(xs + ys, opener) && Quiet(xs + ys)
    ensures Conforming(xs, opener) && Quiet(xs)
    ensures HasFin(xs) ==> forall i | 0 <= i < |ys| :: !IsData(ys[i]) && !FlagsOf(ys[i]).fin
  {
    var zs := xs + ys;
    assert forall i | 0 <= i < |xs| :: zs[i] == xs[i];
    if HasFin(xs) {
      var k :| 0 <= k < |xs| && FlagsOf(xs[k]).fin;
      forall i | 0 <= i < |ys| ensures !IsData(ys[i]) && !FlagsOf(ys[i]).fin {
        assert FlagsOf(zs[k]).fin && zs[|xs| + i] == ys[i];
      }
    }
  }

  lemma ConformingData(xs: seq<Item>, opener: bool)
    requires Conforming(xs, opener)
    ensures forall i | 0 <= i < |xs| :: !IsEmptyData(xs[i])
  {
    forall i | 0 <= i < |xs| ensures !IsEmptyData(xs[i]) {
      assert i > 0 ==> Plain(xs[i]);
    }
  }

  lemma HasFinAppend(xs: seq<Item>, ys: seq<Item>)
    ensures HasFin(xs + ys) == (HasFin(xs) || HasFin(ys))
  {
    var zs := xs + ys;
    if HasFin(xs) {
      var k :| 0 <= k < |xs| && FlagsOf(xs[k]).fin;
      assert FlagsOf(zs[k]).fin;
    }
    if HasFin(ys) {
      var k :| 0 <= k < |ys| && FlagsOf(ys[k]).fin;
      assert zs[|xs| + k] == ys[k] && FlagsOf(zs[|xs| + k]).fin;
    }
    if HasFin(zs) && !HasFin(xs) {
      var k :| 0 <= k < |zs| && FlagsOf(zs[k]).fin;
      assert zs[k] == ys[k - |xs|];
    }
  }

  lemma HeaderLast(xs: seq<Item>, e: StreamEvent, opener: bool)
    requires Conforming(xs + [Head(e)], opener) && Quiet(xs + [Head(e)]) && !e.DataChunk?
    ensures Conforming(xs, opener) && Quiet(xs)
    ensures xs == [] ==> e == WindowUpdate(if opener then SYN else ACK, INITIAL_WINDOW) && !HasFin(xs)
    ensures xs != [] ==> e.flags == NO_FLAGS || (e == WindowUpdate(FIN, 0) && !HasFin(xs))
  {
    ConformingPrefix(xs, [Head(e)], opener);
    var last := (xs + [Head(e)])[|xs|];
    assert last == Head(e);
    if xs != [] {
      assert Plain(last);
      assert HasFin(xs) ==> !FlagsOf([Head(e)][0]).fin;
    }
  }

  lemma HasFinLast(xs: seq<Item>, e: StreamEvent)
    requires !e.DataChunk?
    ensures HasFin(xs + [Head(e)]) == (HasFin(xs) || e.flags.fin)
  {
    HasFinAppend(xs, [Head(e)]);
    assert FlagsOf([Head(e)][0]) == e.flags;
  }

  /** What a header from a conforming peer can be. */
  lemma GoodHeader(h: History, e: StreamEvent, s: Stream)
    requires GoodPeer(Accept(h, e, s)) && !e.DataChunk?
    ensures GoodPeer(h)
    ensures Received(h) == [] ==>
              e == WindowUpdate(if h.opener then ACK else SYN, INITIAL_WINDOW) && !HasFin(Received(h))
    ensures Received(h) != [] ==> e.flags == NO_FLAGS || (e == WindowUpdate(FIN, 0) && !HasFin(Received(h)))
    ensures HasFin(Received(Accept(h, e, s))) == (HasFin(Received(h)) || e.flags.fin)
  {
    hide Conforming, Quiet, HasFin;
    AcceptItems(h, e, s);
    assert ItemsOf(e) == [Head(e)];
    HeaderLast(Received(h), e, !h.opener);
    HasFinLast(Received(h), e);
  }

  lemma FlagsCases(s: Stream)
    ensures HandleFlags(s, NO_FLAGS) == HandleFlags(s, SYN) == s
    ensures HandleFlags(s, ACK) == s.(remote := true)
    ensures HandleFlags(s, FIN) == CloseRemote(s)
  {
  }

  /** The peer's FIN: the marker goes behind everything delivered. */
  lemma FinClose(h: History, s: Stream)
    requires DeliveryInv(h) && CloseInv(h) && GoodPeer(h) && Received(h) != [] && !HasFin(Received(h))
    requires s == CloseRemote(h.s) && GoodPeer(Accept(h, WindowUpdate(FIN, 0), s))
    requires HasFin(Received(Accept(h, WindowUpdate(FIN, 0), s)))
    ensures CloseInv(Accept(h, WindowUpdate(FIN, 0), s))
  {
    hide Bytes, Flat, Conforming, Quiet, HasFin, GoodPeer;
    AcceptItems(h, WindowUpdate(FIN, 0), s);
    SendDownFlat(h.s, []);
    assert s.down == SendDown(h.s, []).down && s.tx == SendDown(h.s, []).tx;
  }

  /** Only the peer's items, the remote half and the channel to the user matter here. */
  lemma CloseIgnores(h: History, h': History)
    requires CloseInv(h) && h.opener == h'.opener && Received(h) == Received(h')
    requires h.s.remote == h'.s.remote && h.s.down == h'.s.down && h.s.tx == h'.s.tx
    ensures CloseInv(h')
  {
  }

  lemma HeaderClose(h: History, e: StreamEvent)
    requires DeliveryInv(h) && CloseInv(h) && !e.DataChunk? && OnInput(h.s, e).Ok?
    ensures CloseInv(Accept(h, e, OnInput(h.s, e).value))
  {
    hide Bytes, Flat, Conforming, Quiet, HasFin, DeliveryInv, HandleFlags;
    var s := OnInput(h.s, e).value;
    var h' := Accept(h, e, s);
    if GoodPeer(h') {
      AcceptItems(h, e, s);
      GoodHeader(h, e, s);
      FlagsCases(h.s);
      assert ItemsOf(e) == [Head(e)] && Received(h') != [];
      if e.flags == FIN {
        FinClose(h, CloseRemote(h.s));
        CloseIgnores(Accept(h, WindowUpdate(FIN, 0), CloseRemote(h.s)), h');
      } else {
        assert Bytes(Received(h')) == Bytes(Received(h));
      }
    }
  }

  lemma GoodChunk(h: History, c: Chunk)
    requires DeliveryInv(h) && OnInput(h.s, DataChunk(c)).Ok?
    requires GoodPeer(Accept(h, DataChunk(c), OnInput(h.s, DataChunk(c)).value))
    requires c == [] ==> h.s.recvState == Some(0)
    ensures GoodPeer(h) && c != [] && Received(h) != [] && !HasFin(Received(h))
    ensures !HasFin(Received(Accept(h, DataChunk(c), OnInput(h.s, DataChunk(c)).value)))
  {
    var xs, ys := Received(h), ItemsOf(DataChunk(c));
    AcceptItems(h, DataChunk(c), OnInput(h.s, DataChunk(c)).value);
    ConformingPrefix(xs, ys, !h.opener);
    HasFinAppend(xs, ys);
    ConformingData(xs, !h.opener);
    assert ys[0] == Octet(c[0]);
    assert (xs + ys)[|xs|] == ys[0];
    assert !HasFin(ys);
  }

  lemma ChunkClose(h: History, c: Chunk)
    requires DeliveryInv(h) && CloseInv(h) && OnInput(h.s, DataChunk(c)).Ok?
    requires c == [] ==> h.s.recvState == Some(0)
    ensures CloseInv(Accept(h, DataChunk(c), OnInput(h.s, DataChunk(c)).value))
  {
    hide Bytes, Flat, Conforming, Quiet, HasFin, OnInput, MarkReceived;
    var s := OnInput(h.s, DataChunk(c)).value;
    var h' := Accept(h, DataChunk(c), s);
    ChunkEffect(h.s, c);
    if GoodPeer(h') {
      GoodChunk(h, c);
      AcceptItems(h, DataChunk(c), s);
      assert Received(h') != [];
    }
  }

  // No data after the FIN.

  lemma NoAckPrefix(xs: seq<Item>, ys: seq<Item>)
    requires NoAckAfterRst(xs + ys)
    ensures NoAckAfterRst(xs)
    ensures HasRst(xs) ==> HasRst(xs + ys) && forall i | 0 <= i < |ys| :: !FlagsOf(ys[i]).ack
  {
    var zs := xs + ys;
    assert forall i | 0 <= i < |xs| :: zs[i] == xs[i];
    if HasRst(xs) {
      var k :| 0 <= k < |xs| && FlagsOf(xs[k]).rst;
      assert FlagsOf(zs[k]).rst;
      forall i | 0 <= i < |ys| ensures !FlagsOf(ys[i]).ack {
        assert zs[|xs| + i] == ys[i];
      }
    }
  }

  lemma QuietUpdate(xs: seq<Item>, e: StreamEvent)
    requires Quiet(xs) && e.WindowUpdate?
    ensures Quiet(xs + [Head(e)])
  {
  }

  lemma CloseLocalQuiet(h: History)
    requires Quiet(Emitted(h))
    ensures Quiet(Emitted(h.(s := CloseLocal(h.s))))
  {
    if h.s.local {
      Emits(h, CloseLocal(h.s), WindowUpdate(FIN, 0));
      QuietUpdate(Emitted(h), WindowUpdate(FIN, 0));
    }
  }

  /** Which halves flags can open and close. */
  lemma FlagsState(s: Stream, f: Flags)
    ensures var s' := HandleFlags(s, f);
            && s'.outs == (if f.rst then CloseLocal(s).outs else s.outs)
            && s'.local == (s.local && !f.rst)
            && (f.rst || (!s.remote && !f.ack) ==> !s'.remote)
            && s'.up == s.up && s'.upClosed == s.upClosed
  {
  }

  lemma RstSeen(xs: seq<Item>, ys: seq<Item>)
    requires ys != [] && FlagsOf(ys[0]).rst
    ensures HasRst(xs + ys)
  {
    assert FlagsOf((xs + ys)[|xs|]).rst;
  }

  lemma HeaderSeal(h: History, e: StreamEvent)
    requires SealInv(h) && !e.DataChunk? && OnInput(h.s, e).Ok?
    ensures SealInv(Accept(h, e, OnInput(h.s, e).value))
  {
    hide Quiet, NoAckAfterRst, HasRst, HandleFlags;
    var s := OnInput(h.s, e).value;
    var h' := Accept(h, e, s);
    AcceptItems(h, e, s);
    FlagsState(h.s, e.flags);
    if !h'.emptyWrites && NoAckAfterRst(Received(h')) {
      NoAckPrefix(Received(h), ItemsOf(e));
      assert FlagsOf(ItemsOf(e)[0]) == e.flags;
      CloseLocalQuiet(h);
      if e.flags.rst {
        RstSeen(Received(h), ItemsOf(e));
      }
    }
  }

  lemma ChunkSeal(h: History, c: Chunk)
    requires SealInv(h) && OnInput(h.s, DataChunk(c)).Ok?
    ensures SealInv(Accept(h, DataChunk(c), OnInput(h.s, DataChunk(c)).value))
  {
    hide Quiet, NoAckAfterRst, HasRst, OnInput;
    var s := OnInput(h.s, DataChunk(c)).value;
    var h' := Accept(h, DataChunk(c), s);
    ChunkEffect(h.s, c);
    AcceptItems(h, DataChunk(c), s);
    if !h'.emptyWrites && NoAckAfterRst(Received(h')) {
      NoAckPrefix(Received(h), ItemsOf(DataChunk(c)));
      if s.outs != h.s.outs {
        var n := (h.s.recv + |c|) % 0x1_0000_0000;
        Emits(h, s, WindowUpdate(NO_FLAGS, n));
        QuietUpdate(Emitted(h), WindowUpdate(NO_FLAGS, n));
      }
    }
  }

  lemma InputInv(h: History, e: StreamEvent)
    requires Inv(h) && Legal(h, Input(e))
    ensures Inv(Step(h, Input(e)))
  {
    hide CreditInv, DataInv, ShapeInv, PairedInv, DeliveryInv, CloseInv, SealInv, HandleFlags;
    if OnInput(h.s, e).Ok? {
      if e.DataChunk? {
        ChunkOutput(h, e.chunk);
        ChunkDelivery(h, e.chunk);
        ChunkClose(h, e.chunk);
        ChunkSeal(h, e.chunk);
      } else {
        HeaderOutput(h, e);
        HeaderDelivery(h, e);
        HeaderClose(h, e);
        HeaderSeal(h, e);
      }
    }
  }

  // --- The user ----------------------------------------------------------------------------

  lemma WriteInv(h: History, buf: seq<byte>)
    requires Inv(h) && !h.s.upClosed
    ensures Inv(Step(h, Write(buf)))
  {
    hide Bytes, Credit, Conforming, Quiet, HasFin, HasRst, NoAckAfterRst, Paired, Flat;
    var c := buf[..if |buf| < CHUNK_CAPACITY then |buf| else CHUNK_CAPACITY];
    FlatSnoc(h.s.up, c);
    assert h.written + c == Bytes(Emitted(h)) + (Flat(h.s.up) + c);
  }

  lemma UserInv(h: History, op: Op)
    requires Inv(h) && (op.Write? || op.CloseUser? || op.DropUser?)
    ensures Inv(Step(h, op))
  {
    hide Bytes, Credit, Conforming, Quiet, HasFin, HasRst, NoAckAfterRst, Paired, Flat, Items;
    if op.Write? && !h.s.upClosed {
      WriteInv(h, op.buf);
    }
  }

  // --- All runs ----------------------------------------------------------------------------

  lemma StepInv(h: History, op: Op)
    requires Inv(h) && Legal(h, op)
    ensures Inv(Step(h, op))
  {
    hide Inv;
    match op
    case Input(e) => InputInv(h, e);
    case Poll => PollInv(h);
    case _ => UserInv(h, op);
  }

  function Execute(opener: bool, ops: seq<Op>): History {
    if ops == [] then Birth(opener) else Step(Execute(opener, ops[..|ops| - 1]), ops[|ops| - 1])
  }

  /** The run's inputs are ones the layers below can produce. */
  predicate LegalRun(opener: bool, ops: seq<Op>) {
    forall k | 0 <= k < |ops| :: Legal(Execute(opener, ops[..k]), ops[k])
  }

  lemma {:induction false} RunInv(opener: bool, ops: seq<Op>)
    requires LegalRun(opener, ops)
    ensures Inv(Execute(opener, ops))
  {
    hide Inv, Step, Legal;
    if ops == [] {
      BirthInv(opener);
    } else {
      var front := ops[..|ops| - 1];
      assert forall k | 0 <= k < |front| :: front[..k] == ops[..k];
      RunInv(opener, front);
      StepInv(Execute(opener, front), ops[|ops| - 1]);
    }
  }
}
