/** When a poll asks the byte stream to take what is buffered, and when it does not. */
module Polls {
  import opened Wire
  import opened StreamModel
  import opened SessionModel
  import EP = SessionProofs
  import HG = HeadGuarantees
  import Codec

  predicate Asks(ls: seq<Label>) {
    exists l | l in ls :: l.Offer?
  }

  /** Some label put a frame into the queue. */
  predicate Queues(s: Session, ls: seq<Label>) {
    ls != [] &&
    var front := ls[..|ls| - 1];
    || Queues(s, front)
    || (Perform(s, front).Some? && Perform(s, ls).Some?
        && |Perform(s, front).value.outQueue| < |Perform(s, ls).value.outQueue|)
  }

  predicate HasAsked(p: Phase) {
    match p
    case Sending(_, sent, asked) => sent || asked
    case Reading(sent) => sent
    case Serving(sent, _, _) => sent
    case Flushing => true
    case Resting => false
  }

  // --- Exactly when a poll asks ------------------------------------------------------------

  /** What a poll on its way knows: `queue` was queued when it began, `asked` whether it has asked,
      `queued` whether it has put anything into the queue, `accepted` whether it has just accepted a
      stream. */
  predicate Tells(queue: seq<Frame>, t: Session, asked: bool, queued: bool, accepted: bool) {
    && (!asked ==> !HasAsked(t.phase) && (t.outQueue == [] <==> queue == [] && !queued))
    && (asked ==> queue != [] || queued)
    && match t.phase
       case Sending(true, _, _) => !queued
       case Reading(_) => asked <==> queue != []
       case Resting => asked <==> queue != [] || (queued && !accepted)
       case _ => !asked ==> queue == []
  }

  lemma FrameQueues(s: Session, f: Frame)
    ensures |s.outQueue| <= |Taken(s, f).outQueue|
    ensures Taken(s, f).phase == if Accepts(s, f) then Resting else s.phase
  {
    hide OnInputOrSame, NewStream;
    EP.DispatchDraining(s, f);
  }

  lemma StepTells(queue: seq<Frame>, t: Session, asked: bool, queued: bool, l: Label)
    requires Tells(queue, t, asked, queued, false) && !t.phase.Resting?
    requires Enabled(t, l) && OwnStep(l)
    ensures var t' := Do(t, l);
            Tells(queue, t', asked || l.Offer?, queued || |t.outQueue| < |t'.outQueue|, l == NextFrame)
  {
    hide Codec.NextFrame, PollNext, SendReady, Encode, Taken;
    if l == NextFrame {
      var (reader, next) := Codec.NextFrame(t.reader);
      FrameQueues(t.(reader := reader), next.frame);
    }
  }

  lemma AsksMore(ls: seq<Label>, l: Label)
    ensures Asks(ls + [l]) <==> Asks(ls) || l.Offer?
  {
    assert forall k | k in ls :: k in ls + [l];
    assert l in ls + [l];
  }

  lemma BeginTells(s: Session)
    requires s.phase.Resting? && Enabled(s, BeginPoll)
    ensures Do(s, BeginPoll) == s.(phase := Sending(true, false, false))
    ensures Tells(s.outQueue, Do(s, BeginPoll), false, false, false)
  {
  }

  lemma RestingEnds(t: Session, l: Label)
    requires Enabled(t, l) && OwnStep(l) && !l.BeginPoll?
    ensures !t.phase.Resting?
  {
    hide Codec.NextFrame, PollNext, SendReady;
  }

  lemma StillGoing(queue: seq<Frame>, t: Session, asked: bool, queued: bool, accepted: bool)
    requires Tells(queue, t, asked, queued, accepted) && !t.phase.Resting?
    ensures Tells(queue, t, asked, queued, false)
  {
  }

  /** The labels of a poll from its beginning on. */
  lemma {:induction false} PollTells(s: Session, ls: seq<Label>)
    requires s.phase.Resting? && OnePoll(ls) && Perform(s, ls).Some?
    ensures Tells(s.outQueue, Perform(s, ls).value, Asks(ls), Queues(s, ls), ls[|ls| - 1] == NextFrame)
  {
    hide Enabled, Do, Tells;
    var n := |ls| - 1;
    var front, l := ls[..n], ls[n];
    assert ls == front + [l];
    AsksMore(front, l);
    if n == 0 {
      assert Perform(s, front) == Some(s) && !Queues(s, front);
      BeginTells(s);
    } else {
      assert l in ls[1..] && front[1..] <= ls[1..];
      assert forall k | k in front[1..] :: k in ls[1..];
      PollTells(s, front);
      var t := Perform(s, front).value;
      RestingEnds(t, l);
      StillGoing(s.outQueue, t, Asks(front), Queues(s, front), front[n - 1] == NextFrame);
      StepTells(s.outQueue, t, Asks(front), Queues(s, front), l);
    }
  }

  /** A poll asks the byte stream exactly when something is queued at its start, or is queued on its
      way and it does not end early with a stream. */
  lemma {:induction false} PollAsksExactly(s: Session, ls: seq<Label>)
    requires s.phase.Resting? && OnePoll(ls)
    requires Perform(s, ls).Some? && Perform(s, ls).value.phase.Resting?
    ensures Asks(ls) <==> s.outQueue != [] || (Queues(s, ls) && ls[|ls| - 1] != NextFrame)
  {
    hide Perform, Asks, Queues;
    PollTells(s, ls);
  }

  // --- A poll with nothing to do -----------------------------------------------------------

  /** Nothing queued, nothing to parse, and no head with anything to say. */
  predicate Idle(s: Session) {
    && s.outQueue == [] && Codec.NextFrame(s.reader).1.NeedMore?
    && forall id | id in s.streams :: !PollNext(s.streams[id]).1.Ready?
  }

  lemma StepIdle(t: Session, l: Label)
    requires Idle(t) && !HasAsked(t.phase) && Enabled(t, l) && OwnStep(l) && !l.Receive?
    ensures var t' := Do(t, l);
            Idle(t') && !HasAsked(t'.phase) && t'.buffer == t.buffer && t'.reader == t.reader && !l.Offer?
  {
    hide Codec.NextFrame, PollNext, SendReady, Encode, Taken;
    if l == PollHead {
      HG.StaysAsPolled(t.streams[t.draining.value]);
    }
  }

  lemma NothingArrived(ls: seq<Label>, l: Label)
    requires BytesIn(ls + [l]) == []
    ensures BytesIn(ls) == [] && ArrivesBy(l) == []
  {
    FlatMapConcat(ArrivesBy, ls, [l]);
    FlatMapOne(ArrivesBy, l);
  }

  lemma ReceivesSome(t: Session, l: Label)
    requires Enabled(t, l) && ArrivesBy(l) == []
    ensures !l.Receive?
  {
    hide Codec.NextFrame, PollNext;
  }

  /** Polls of an idle session to which nothing arrives leave its buffer as it is, however willing
      the byte stream would be to take it. */
  lemma {:induction false} IdlePoll(s: Session, ls: seq<Label>)
    requires Idle(s) && !HasAsked(s.phase) && Perform(s, ls).Some? && BytesIn(ls) == []
    ensures BytesOut(s, ls) == [] && !Asks(ls) && Refusals(s, ls) == 0
    ensures var t := Perform(s, ls).value; Idle(t) && !HasAsked(t.phase) && t.buffer == s.buffer && t.reader == s.reader
  {
    hide Enabled, Do, Idle, HasAsked, BytesIn;
    if ls == [] {
    } else {
      var n := |ls| - 1;
      var front, l := ls[..n], ls[n];
      assert ls == front + [l];
      NothingArrived(front, l);
      IdlePoll(s, front);
      var t := Perform(s, front).value;
      ReceivesSome(t, l);
      StepIdle(t, l);
      AsksMore(front, l);
    }
  }
}
