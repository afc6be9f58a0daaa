/** Which streams come to be, and what each of them is given: frames against heads, over every run of
    one endpoint against any peer and any users. */
module Dispatching {
  import opened Wire
  import opened StreamModel
  import opened SessionModel
  import opened EndpointGuarantees
  import EP = SessionProofs
  import HS = HeadSteps
  import Codec
  import StreamIds

  // --- Which streams there are -------------------------------------------------------------

  /** A frame that opens stream `id`: a data or window update frame with SYN. */
  predicate Opens(f: Frame, id: u32) {
    && f.StreamFrame? && f.id == id
    && (f.event.Data? || f.event.WindowUpdate?) && f.event.flags.syn
  }

  /** How many streams were opened on this side. */
  function OpenCount(actions: seq<Action>): nat {
    if actions == [] then 0
    else OpenCount(actions[..|actions| - 1]) + if actions[|actions| - 1] == Internal(OpenStream) then 1 else 0
  }

  predicate OpenedHere(isServer: bool, opens: nat, id: u32) {
    exists k | 0 <= k < opens :: StreamIds.NthId(isServer, k) == id
  }

  predicate OpenedThere(inputs: seq<Frame>, id: u32) {
    exists i | 0 <= i < |inputs| :: Opens(inputs[i], id)
  }

  /** The streams known are those opened here or by the peer. */
  ghost predicate KnownAre(e: Endpoint, isServer: bool, opens: nat) {
    && e.sess.nextId == StreamIds.NthId(isServer, opens)
    && forall id: u32 :: id in e.runs <==> OpenedHere(isServer, opens, id) || OpenedThere(e.inputs, id)
  }

  lemma OneMoreOpen(isServer: bool, opens: nat, id: u32)
    ensures OpenedHere(isServer, opens + 1, id) <==>
              OpenedHere(isServer, opens, id) || id == StreamIds.NthId(isServer, opens)
  {
    hide StreamIds.NthId;
    if id == StreamIds.NthId(isServer, opens) {
      assert opens < opens + 1;
    }
  }

  lemma OneMoreInput(inputs: seq<Frame>, f: Frame, id: u32)
    ensures OpenedThere(inputs + [f], id) <==> OpenedThere(inputs, id) || Opens(f, id)
  {
    var all := inputs + [f];
    assert all[|inputs|] == f && forall i | 0 <= i < |inputs| :: all[i] == inputs[i];
  }

  lemma OpenKnown(e: Endpoint, isServer: bool, opens: nat)
    requires KnownAre(e, isServer, opens) && CanAct(e, Internal(OpenStream))
    ensures KnownAre(Act(e, Internal(OpenStream)), isServer, opens + 1)
  {
    hide OpenedHere, OpenedThere, Birth, NewStream;
    var e' := Act(e, Internal(OpenStream));
    forall id: u32
      ensures id in e'.runs <==> OpenedHere(isServer, opens + 1, id) || OpenedThere(e'.inputs, id)
    {
      OneMoreOpen(isServer, opens, id);
    }
  }

  lemma FrameThere(e: Endpoint)
    requires CanAct(e, Internal(NextFrame))
    ensures Codec.NextFrame(e.sess.reader).1.Parsed?
  {
    hide Codec.NextFrame;
  }

  lemma NextFrameRuns(e: Endpoint)
    requires EP.Mirror(e) && CanAct(e, Internal(NextFrame))
    ensures var (e', f) := (Act(e, Internal(NextFrame)), Codec.NextFrame(e.sess.reader).1.frame);
            && e'.inputs == e.inputs + [f] && e'.sess.nextId == e.sess.nextId
            && forall id: u32 :: id in e'.runs <==> id in e.runs || Opens(f, id)
  {
    hide Codec.NextFrame, Step, Birth, OnInputOrSame, NewStream;
  }

  lemma FrameKnown(e: Endpoint, isServer: bool, opens: nat)
    requires EP.Mirror(e) && KnownAre(e, isServer, opens) && CanAct(e, Internal(NextFrame))
    ensures KnownAre(Act(e, Internal(NextFrame)), isServer, opens)
  {
    hide OpenedHere, OpenedThere, Opens, Act, CanAct;
    FrameThere(e);
    var e', f := Act(e, Internal(NextFrame)), Codec.NextFrame(e.sess.reader).1.frame;
    NextFrameRuns(e);
    forall id: u32
      ensures id in e'.runs <==> OpenedHere(isServer, opens, id) || OpenedThere(e'.inputs, id)
    {
      OneMoreInput(e.inputs, f, id);
    }
  }

  lemma OtherKnown(e: Endpoint, a: Action)
    requires CanAct(e, a) && a != Internal(NextFrame) && a != Internal(OpenStream)
    ensures var e' := Act(e, a);
            e'.runs.Keys == e.runs.Keys && e'.inputs == e.inputs && e'.sess.nextId == e.sess.nextId
  {
    hide Codec.NextFrame, Step, PollNext, Encode, UserStep, SendReady, RunsAfterFrame, Taken, Birth, Offers, Leaves;
  }

  lemma ActKnown(e: Endpoint, isServer: bool, opens: nat, a: Action)
    requires EP.Mirror(e) && KnownAre(e, isServer, opens) && CanAct(e, a)
    ensures KnownAre(Act(e, a), isServer, opens + if a == Internal(OpenStream) then 1 else 0)
  {
    hide OpenedHere, OpenedThere, Act, CanAct, EP.Mirror;
    if a == Internal(OpenStream) {
      OpenKnown(e, isServer, opens);
    } else if a == Internal(NextFrame) {
      FrameKnown(e, isServer, opens);
    } else {
      OtherKnown(e, a);
      assert forall id: u32 :: id in Act(e, a).runs <==> id in Act(e, a).runs.Keys;
    }
  }

  lemma NoneKnown(isServer: bool, limit: nat)
    ensures KnownAre(NewEndpoint(isServer, limit), isServer, 0)
  {
  }

  lemma {:induction false} RunKnown(isServer: bool, limit: nat, actions: seq<Action>)
    requires RunFrom(NewEndpoint(isServer, limit), actions).Some?
    ensures KnownAre(RunFrom(NewEndpoint(isServer, limit), actions).value, isServer, OpenCount(actions))
  {
    hide EP.EInv, Act, CanAct, EP.Harmless, KnownAre;
    if actions == [] {
      NoneKnown(isServer, limit);
    } else {
      var front, a := actions[..|actions| - 1], actions[|actions| - 1];
      RunKnown(isServer, limit, front);
      RunFromInv(isServer, limit, front);
      var e := RunFrom(NewEndpoint(isServer, limit), front).value;
      EP.MirrorOf(e);
      ActKnown(e, isServer, OpenCount(front), a);
    }
  }

  /** After any run, a stream is known exactly if its id is one of those this side has opened, or a data
      or window update frame with SYN has come in for it. */
  lemma {:induction false} KnownExactlyWhen(isServer: bool, limit: nat, actions: seq<Action>, id: u32)
    requires RunFrom(NewEndpoint(isServer, limit), actions).Some?
    ensures var e := RunFrom(NewEndpoint(isServer, limit), actions).value;
            id in e.runs <==> OpenedHere(isServer, OpenCount(actions), id) || OpenedThere(e.inputs, id)
  {
    hide RunFrom, OpenedHere, OpenedThere, OpenCount;
    RunKnown(isServer, limit, actions);
  }

  // --- What each is given ------------------------------------------------------------------

  function EventFor(id: u32): Frame -> seq<StreamEvent> {
    (f: Frame) => if f.StreamFrame? && f.id == id then [f.event] else []
  }

  /** The events of one stream among some frames. */
  function EventsFor(fs: seq<Frame>, id: u32): seq<StreamEvent> {
    FlatMap(EventFor(id), fs)
  }

  /** A head has been given all the events for its id between its birth and its removal, in order; one
      the peer opened begins with the frame that did. */
  predicate Given(e: Endpoint, id: u32, from: nat, to: nat)
    requires id in e.runs
  {
    && from <= to <= |e.inputs|
    && e.runs[id].received == EventsFor(e.inputs[from..to], id)
    && (id in e.sess.streams ==> to == |e.inputs|)
    && (!e.runs[id].opener ==> from < to && Opens(e.inputs[from], id))
  }

  ghost predicate AllGiven(e: Endpoint) {
    forall id | id in e.runs :: exists from: nat, to: nat :: Given(e, id, from, to)
  }

  lemma NoEvents(id: u32)
    ensures EventsFor([], id) == []
  {
  }

  lemma EventsMore(fs: seq<Frame>, f: Frame, id: u32)
    ensures EventsFor(fs + [f], id) == EventsFor(fs, id) + if f.StreamFrame? && f.id == id then [f.event] else []
  {
    FlatMapConcat(EventFor(id), fs, [f]);
    FlatMapOne(EventFor(id), f);
  }

  lemma StepKeepsReceived(h: History, op: Op)
    requires !op.Input?
    ensures Step(h, op).received == h.received && Step(h, op).opener == h.opener
  {
    hide PollNext;
  }

  /** What concerns no frame changes nothing that was given. */
  lemma OtherGiven(e: Endpoint, a: Action, id: u32)
    requires EP.Mirror(e) && CanAct(e, a) && a != Internal(NextFrame) && id in e.runs
    requires a == Internal(OpenStream) ==> id != e.sess.nextId
    ensures var e' := Act(e, a);
            && id in e'.runs && e'.runs[id].received == e.runs[id].received && e'.runs[id].opener == e.runs[id].opener
            && e'.inputs == e.inputs && (id in e'.sess.streams ==> id in e.sess.streams)
  {
    hide Codec.NextFrame, PollNext, Encode, UserStep, SendReady, Step;
    if a.Internal? && a.step.PollHead? {
      StepKeepsReceived(e.runs[e.sess.draining.value], Poll);
    } else if a.Internal? && a.step.User? {
      StepKeepsReceived(e.runs[a.step.id], a.step.op);
    }
  }

  lemma OpenGiven(e: Endpoint)
    requires CanAct(e, Internal(OpenStream))
    ensures var e' := Act(e, Internal(OpenStream));
            Given(e', e.sess.nextId, |e.inputs|, |e.inputs|)
  {
    hide NewStream;
    NoEvents(e.sess.nextId);
    assert e.inputs[|e.inputs|..|e.inputs|] == [];
  }

  lemma BirthHears(ev: StreamEvent)
    requires !ev.DataChunk?
    ensures Step(Birth(false), Input(ev)).received == [ev] && !Step(Birth(false), Input(ev)).opener
  {
    hide NewStream, OnInput;
    EP.FreshAccepts(ev);
  }

  lemma HeadHears(h: History, ev: StreamEvent)
    requires OnInput(h.s, ev).Ok?
    ensures Step(h, Input(ev)).received == h.received + [ev] && Step(h, Input(ev)).opener == h.opener
  {
    hide OnInput;
  }

  /** The history of a stream when a frame has been taken. */
  lemma FrameEffect(e: Endpoint, id: u32)
    requires EP.Mirror(e) && EP.Lockstep(e.sess) && CanAct(e, Internal(NextFrame))
    requires id in Act(e, Internal(NextFrame)).runs
    ensures var (e', f) := (Act(e, Internal(NextFrame)), Codec.NextFrame(e.sess.reader).1.frame);
            && e'.inputs == e.inputs + [f]
            && if f.StreamFrame? && f.id == id && id in e.sess.streams then
                 && id in e.runs && id in e'.sess.streams
                 && e'.runs[id].received == e.runs[id].received + [f.event] && e'.runs[id].opener == e.runs[id].opener
               else if Opens(f, id) then
                 id in e'.sess.streams && e'.runs[id].received == [f.event] && !e'.runs[id].opener
               else
                 id in e.runs && e'.runs[id] == e.runs[id] && (id in e'.sess.streams <==> id in e.sess.streams)
  {
    hide Codec.NextFrame, Step, Birth, OnInputOrSame, NewStream, OnInput;
    var f := Codec.NextFrame(e.sess.reader).1.frame;
    EP.DispatchAccepted(e.sess);
    if f.StreamFrame? && f.id == id {
      if id in e.sess.streams {
        HeadHears(e.runs[id], f.event);
      } else if Opens(f, id) {
        BirthHears(f.event);
      }
    }
  }

  lemma OpensIs(f: Frame, id: u32)
    requires Opens(f, id)
    ensures f.StreamFrame? && f.id == id
  {
  }

  lemma FrameGiven(e: Endpoint, id: u32)
    requires EP.Mirror(e) && EP.Lockstep(e.sess) && AllGiven(e) && CanAct(e, Internal(NextFrame))
    requires id in Act(e, Internal(NextFrame)).runs
    ensures exists from: nat, to: nat :: Given(Act(e, Internal(NextFrame)), id, from, to)
  {
    hide Act, CanAct, Codec.NextFrame, EventsFor, Opens, EP.Mirror, EP.Lockstep;
    FrameThere(e);
    var e', f, n := Act(e, Internal(NextFrame)), Codec.NextFrame(e.sess.reader).1.frame, |e.inputs|;
    FrameEffect(e, id);
    if !(f.StreamFrame? && f.id == id && id in e.sess.streams) && Opens(f, id) {
      assert e'.inputs[n..n + 1] == [] + [f];
      NoEvents(id);
      EventsMore([], f, id);
      assert f.StreamFrame? && f.id == id by { OpensIs(f, id); }
      assert Given(e', id, n, n + 1);
    } else {
      var from: nat, to: nat :| Given(e, id, from, to);
      assert e'.inputs[from..to] == e.inputs[from..to];
      if id in e.sess.streams {
        assert e'.inputs[from..n + 1] == e.inputs[from..n] + [f];
        EventsMore(e.inputs[from..n], f, id);
        assert Given(e', id, from, n + 1);
      } else {
        assert Given(e', id, from, to);
      }
    }
  }

  lemma OldKnown(e: Endpoint, a: Action, id: u32)
    requires EP.Mirror(e) && CanAct(e, a) && a != Internal(NextFrame) && id in Act(e, a).runs
    requires a == Internal(OpenStream) ==> id != e.sess.nextId
    ensures id in e.runs
  {
    hide Codec.NextFrame, PollNext, Encode, UserStep, SendReady, Step;
  }

  lemma ActGiven(e: Endpoint, a: Action)
    requires EP.Mirror(e) && EP.Lockstep(e.sess) && AllGiven(e) && CanAct(e, a)
    ensures AllGiven(Act(e, a))
  {
    hide Act, CanAct, EventsFor, Opens, EP.Mirror, EP.Lockstep;
    var e' := Act(e, a);
    forall id | id in e'.runs ensures exists from: nat, to: nat :: Given(e', id, from, to) {
      if a == Internal(NextFrame) {
        FrameGiven(e, id);
      } else if a == Internal(OpenStream) && id == e.sess.nextId {
        OpenGiven(e);
      } else {
        OldKnown(e, a, id);
        OtherGiven(e, a, id);
        var from: nat, to: nat :| Given(e, id, from, to);
        assert Given(e', id, from, to);
      }
    }
  }

  lemma InStep(e: Endpoint)
    requires EP.EInv(e)
    ensures EP.Mirror(e) && EP.Lockstep(e.sess)
  {
  }

  lemma {:induction false} RunGiven(isServer: bool, limit: nat, actions: seq<Action>)
    requires RunFrom(NewEndpoint(isServer, limit), actions).Some?
    ensures AllGiven(RunFrom(NewEndpoint(isServer, limit), actions).value)
  {
    hide EP.EInv, Act, CanAct, EP.Harmless;
    if actions == [] {
    } else {
      hide AllGiven;
      var front, a := actions[..|actions| - 1], actions[|actions| - 1];
      RunGiven(isServer, limit, front);
      RunFromInv(isServer, limit, front);
      var e := RunFrom(NewEndpoint(isServer, limit), front).value;
      InStep(e);
      ActGiven(e, a);
    }
  }

  /** After any run, every head has been given exactly the events that came in for its id from the frame
      that opened it, or from its opening here, up to its removal or to now: none is lost, added, out of
      order or given to another. */
  lemma {:induction false} HeadsHearTheirs(isServer: bool, limit: nat, actions: seq<Action>, id: u32)
    returns (from: nat, to: nat)
    requires RunFrom(NewEndpoint(isServer, limit), actions).Some?
    requires id in RunFrom(NewEndpoint(isServer, limit), actions).value.runs
    ensures var e := RunFrom(NewEndpoint(isServer, limit), actions).value;
            && from <= to <= |e.inputs| && (id in e.sess.streams ==> to == |e.inputs|)
            && e.runs[id].received == EventsFor(e.inputs[from..to], id)
            && (!e.runs[id].opener ==> from < to && Opens(e.inputs[from], id))
  {
    hide RunFrom, EventsFor, Opens;
    RunGiven(isServer, limit, actions);
    from, to :| Given(RunFrom(NewEndpoint(isServer, limit), actions).value, id, from, to);
  }

  // --- What its user is told ---------------------------------------------------------------

  predicate AllAgree(e: Endpoint) {
    forall id | id in e.runs :: HS.Agrees(e.runs[id])
  }

  lemma FrameAgrees(e: Endpoint)
    requires AllAgree(e) && CanAct(e, Internal(NextFrame))
    ensures AllAgree(Act(e, Internal(NextFrame)))
  {
    hide Codec.NextFrame, Step, Birth, HS.Agrees, Dispatch, Taken;
    var f := Codec.NextFrame(e.sess.reader).1.frame;
    if f.StreamFrame? {
      HS.BirthAgrees(false);
      HS.StepAgrees(Birth(false), Input(f.event));
      if f.id in e.runs {
        HS.StepAgrees(e.runs[f.id], Input(f.event));
      }
    }
  }

  lemma ActAgrees(e: Endpoint, a: Action)
    requires AllAgree(e) && CanAct(e, a)
    ensures AllAgree(Act(e, a))
  {
    hide Codec.NextFrame, Step, Birth, HS.Agrees, Do;
    if a == Internal(NextFrame) {
      FrameAgrees(e);
    } else if a.Internal? {
      match a.step
      case OpenStream => HS.BirthAgrees(true);
      case PollHead => HS.StepAgrees(e.runs[e.sess.draining.value], Poll);
      case User(id, op) => HS.StepAgrees(e.runs[id], op);
      case _ =>
    }
  }

  lemma {:induction false} RunAgrees(isServer: bool, limit: nat, actions: seq<Action>)
    requires RunFrom(NewEndpoint(isServer, limit), actions).Some?
    ensures AllAgree(RunFrom(NewEndpoint(isServer, limit), actions).value)
  {
    hide Act, CanAct, EP.Harmless, HS.Agrees;
    if actions == [] {
    } else {
      var front := actions[..|actions| - 1];
      RunAgrees(isServer, limit, front);
      ActAgrees(RunFrom(NewEndpoint(isServer, limit), front).value, actions[|actions| - 1]);
    }
  }

  /** So what a user that stays finds in its channel is what the peer's frames for its stream say, chunk
      by chunk, with an end marker for each of them that closed the stream's remote half. */
  lemma {:induction false} UsersAreTold(isServer: bool, limit: nat, actions: seq<Action>, id: u32)
    returns (from: nat, to: nat)
    requires RunFrom(NewEndpoint(isServer, limit), actions).Some?
    requires id in RunFrom(NewEndpoint(isServer, limit), actions).value.runs
    ensures var e := RunFrom(NewEndpoint(isServer, limit), actions).value;
            && from <= to <= |e.inputs| && (id in e.sess.streams ==> to == |e.inputs|)
            && (!e.runs[id].opener ==> from < to && Opens(e.inputs[from], id))
            && var told := HS.Told(e.runs[id].opener, EventsFor(e.inputs[from..to], id));
               if e.runs[id].s.userGone then e.runs[id].s.down <= told else e.runs[id].s.down == told
  {
    hide RunFrom, EventsFor, Opens, HS.Told, HS.Opened;
    from, to := HeadsHearTheirs(isServer, limit, actions, id);
    RunAgrees(isServer, limit, actions);
    assert HS.Agrees(RunFrom(NewEndpoint(isServer, limit), actions).value.runs[id]);
  }

  // --- The end -----------------------------------------------------------------------------

  /** No run goes on behind a GoAway. */
  predicate NoneEnds(fs: seq<Frame>) {
    forall i | 0 <= i < |fs| :: !(fs[i].SessionFrame? && fs[i].control.GoAway?)
  }

  lemma ActEnds(e: Endpoint, a: Action)
    requires NoneEnds(e.inputs) && CanAct(e, a)
    ensures NoneEnds(Act(e, a).inputs)
  {
    hide Codec.NextFrame, PollNext, Encode, UserStep, SendReady, Step, RunsAfterFrame, Taken;
  }

  lemma NothingEnds()
    ensures NoneEnds([])
  {
  }

  /** After any run, no GoAway has been taken: the session ends with the first. */
  lemma {:induction false} GoAwayIsTheEnd(isServer: bool, limit: nat, actions: seq<Action>)
    requires RunFrom(NewEndpoint(isServer, limit), actions).Some?
    ensures NoneEnds(RunFrom(NewEndpoint(isServer, limit), actions).value.inputs)
  {
    hide Act, CanAct, EP.Harmless, NoneEnds;
    if actions == [] {
      assert NoneEnds([]) by { NothingEnds(); }
    } else {
      var front := actions[..|actions| - 1];
      GoAwayIsTheEnd(isServer, limit, front);
      ActEnds(RunFrom(NewEndpoint(isServer, limit), front).value, actions[|actions| - 1]);
    }
  }
}
