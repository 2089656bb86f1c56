/**
 What every answer means, over all runs: which step of its own decides what a call answers, what it had
 read before, and that it answers nothing else. The conditions are stated on the queue, the counts and
 `dropping` themselves, apart from the functions that the machine computes its next points with.
 */
module ChannelAnswers {
  import opened Wrappers
  import opened Channel
  import opened ChannelSafety
  import opened ChannelBounds

  predicate IsStepOf(a: Action, c: CallId) {
    IsCallAction(a) && a.c == c
  }

  ghost predicate HasAnswer(s: State, c: CallId, o: Outcome) {
    c in s.calls && OutcomeOf(s.calls[c].pc) == Some(o)
  }

  // ----- The deciding step --------------------------------------------------------------------

  /** A reading by which a call of `op` at `pc` must give answer `o`. */
  predicate ReadingDecides(s: State, op: Op, pc: Pc, o: Outcome) {
    match o
    case NoItem =>
      op == Receive(Forever) && pc.Entry? && s.dropping
    case NoSenders =>
      op.Receive? && op.mode != Forever
      && ((pc.Entry? && s.dropping) || (pc.RecheckPeers? && s.senders == 0) || (pc.RecheckClosing? && s.dropping))
    case ReceiveTimedOut =>
      || (op == Receive(Until) && pc == CheckClosing(true) && !s.dropping)
      || (op == Receive(Once) && pc.RecheckClosing? && !s.dropping)
    case Refused(item) =>
      op.Send? && op.item == item
      && ((pc.Entry? && s.dropping) || (pc.RecheckPeers? && s.receivers == 0) || (pc.RecheckClosing? && s.dropping))
    case SendTimedOut(item) =>
      op.Send? && op.item == item
      && ((op.mode == Once && pc.CheckQueue? && |s.queue| >= s.room)
          || (op.mode == Until && pc == CheckClosing(true) && !s.dropping))
    case MessageThere =>
      op.WaitForMessage? && ((pc.CheckQueue? && s.queue != []) || (pc.CheckClosing? && s.dropping))
    case WaitTimedOut =>
      op.WaitForMessage? && pc == CheckClosing(true) && !s.dropping
    case QueueDropped =>
      op.WaitForMessage? && pc.Entry? && s.dropping
    case _ => false
  }

  /** A failed attempt to lock by which a call must give answer `o`; `receive` and `send` try again instead. */
  predicate LockFailureDecides(op: Op, o: Outcome) {
    match op
    case Receive(mode) => mode != Forever && o == ReceiveTimedOut
    case Send(mode, item) => mode != Forever && o == SendTimedOut(item)
    case WaitForMessage => o == WaitTimedOut
  }

  /** A pop by which a call must give answer `o`; `try_receive_once` looks again if there is nothing. */
  predicate PopDecides(s: State, mode: Mode, o: Outcome) {
    if s.queue != [] then o == Received(s.queue[0])
    else (mode == Forever && o == NoItem) || (mode == Until && o == Panicked)
  }

  /** Step `a` decides that call `c` answers `o`. */
  predicate Decides(s: State, a: Action, c: CallId, o: Outcome) {
    IsStepOf(a, c) && c in s.calls
    && match a
       case Read(_) => ReadingDecides(s, s.calls[c].op, s.calls[c].pc, o)
       case LockFails(_) => LockFailureDecides(s.calls[c].op, o)
       case PushOrPop(_) =>
         if s.calls[c].op.Receive? then PopDecides(s, s.calls[c].op.mode, o) else s.calls[c].op.Send? && o == Sent
       case Grow(_, _) => o == Sent
       case GrowFails(_) => o == Panicked
       case _ => false
  }

  lemma ReadAnswers(s: State, op: Op, pc: Pc, o: Outcome)
    requires IsRead(pc) && LocalOk(s, op, pc)
    ensures OutcomeOf(AfterRead(s, op, pc)) == Some(o) <==> ReadingDecides(s, op, pc, o)
  {
    assert op.Receive? ==> op.mode == Forever || op.mode == Until || op.mode == Once;
    assert op.Send? ==> op.mode == Forever || op.mode == Until || op.mode == Once;
  }

  lemma ReaderAnswers(s: State, c: CallId, o: Outcome)
    requires Basic(s) && CanCall(s, Read(c))
    ensures HasAnswer(DoCall(s, Read(c)), c, o) <==> Decides(s, Read(c), c, o)
  {
    ReadAnswers(s, s.calls[c].op, s.calls[c].pc, o);
    assert DoRead(s, c).calls[c].pc == AfterRead(s, s.calls[c].op, s.calls[c].pc);
  }

  lemma LockFailureAnswers(s: State, c: CallId, o: Outcome)
    requires CanCall(s, LockFails(c))
    ensures HasAnswer(DoCall(s, LockFails(c)), c, o) <==> Decides(s, LockFails(c), c, o)
  {
  }

  lemma PopAnswers(s: State, c: CallId, o: Outcome)
    requires c in s.calls && s.calls[c].op.Receive?
    ensures HasAnswer(DoPop(s, c), c, o) <==> PopDecides(s, s.calls[c].op.mode, o)
  {
    var mode := s.calls[c].op.mode;
    assert mode == Forever || mode == Until || mode == Once;
    if s.queue == [] {
      assert DoPop(s, c).calls[c].pc == AfterEmptyPop(mode);
    } else {
      assert DoPop(s, c).calls[c].pc == Notify(Received(s.queue[0]));
    }
  }

  lemma PushAnswers(s: State, c: CallId, o: Outcome)
    requires c in s.calls && s.calls[c].op.Send?
    ensures HasAnswer(DoPush(s, c), c, o) <==> o == Sent
  {
  }

  lemma TransferAnswers(s: State, c: CallId, o: Outcome)
    requires CanCall(s, PushOrPop(c))
    ensures HasAnswer(DoCall(s, PushOrPop(c)), c, o) <==> Decides(s, PushOrPop(c), c, o)
  {
    if s.calls[c].op.Send? {
      PushAnswers(s, c, o);
    } else {
      PopAnswers(s, c, o);
    }
  }

  lemma GrowthAnswers(s: State, a: Action, o: Outcome)
    requires (a.Grow? || a.GrowFails?) && CanCall(s, a)
    ensures HasAnswer(DoCall(s, a), a.c, o) <==> Decides(s, a, a.c, o)
  {
  }

  lemma AnswerIsKept(s: State, a: Action, o: Outcome)
    requires (a.Signal? || a.Release?) && CanCall(s, a)
    ensures HasAnswer(DoCall(s, a), a.c, o) <==> HasAnswer(s, a.c, o)
  {
  }

  lemma LockerHasNoAnswer(s: State, a: Action, o: Outcome)
    requires (a.Start? || a.Lock? || a.Reacquire?) && CanCall(s, a)
    ensures !HasAnswer(DoCall(s, a), a.c, o) && !HasAnswer(s, a.c, o)
  {
  }

  lemma SleeperHasNoAnswer(s: State, a: Action, o: Outcome)
    requires (a.Sleep? || a.Wake? || a.Expire?) && CanCall(s, a)
    ensures !HasAnswer(DoCall(s, a), a.c, o) && !HasAnswer(s, a.c, o)
  {
  }

  lemma OwnStepAnswers(s: State, a: Action, o: Outcome)
    requires Basic(s) && IsCallAction(a) && CanCall(s, a)
    ensures HasAnswer(DoCall(s, a), a.c, o) <==> HasAnswer(s, a.c, o) || Decides(s, a, a.c, o)
  {
    if a.Read? {
      ReaderAnswers(s, a.c, o);
    } else if a.LockFails? {
      LockFailureAnswers(s, a.c, o);
    } else if a.PushOrPop? {
      TransferAnswers(s, a.c, o);
    } else if a.Grow? || a.GrowFails? {
      GrowthAnswers(s, a, o);
    } else if a.Signal? || a.Release? {
      AnswerIsKept(s, a, o);
    } else if a.Start? || a.Lock? || a.Reacquire? {
      LockerHasNoAnswer(s, a, o);
    } else {
      SleeperHasNoAnswer(s, a, o);
    }
  }

  lemma AnswerFrame(s: State, s': State, c: CallId, o: Outcome)
    requires c in s.calls && c in s'.calls && Undisturbed(s.calls[c], s'.calls[c])
    ensures HasAnswer(s', c, o) <==> HasAnswer(s, c, o)
  {
  }

  lemma OtherStepAnswers(s: State, a: Action, c: CallId, o: Outcome)
    requires Basic(s) && Can(s, a) && !IsStepOf(a, c)
    ensures HasAnswer(Do(s, a), c, o) <==> HasAnswer(s, c, o)
  {
    OthersUndisturbed(s, a);
    if c in s.calls {
      AnswerFrame(s, Do(s, a), c, o);
    }
  }

  lemma StepAnswers(s: State, a: Action, c: CallId, o: Outcome)
    requires Basic(s) && Can(s, a)
    ensures HasAnswer(Do(s, a), c, o) <==> HasAnswer(s, c, o) || Decides(s, a, c, o)
  {
    if IsStepOf(a, c) {
      OwnStepAnswers(s, a, o);
    } else {
      OtherStepAnswers(s, a, c, o);
    }
  }

  ghost predicate IsDecided(states: seq<State>, acts: seq<Action>, i: nat, c: CallId, o: Outcome)
    requires i <= |acts| < |states|
  {
    exists m :: 0 <= m < i && Decides(states[m], acts[m], c, o)
  }

  lemma AnswerInRun(capacity: nat, states: seq<State>, acts: seq<Action>, m: nat, c: CallId, o: Outcome)
    requires IsRun(capacity, states, acts) && m < |acts|
    ensures HasAnswer(states[m + 1], c, o) <==> HasAnswer(states[m], c, o) || Decides(states[m], acts[m], c, o)
  {
    RunKeepsBasic(capacity, states, acts, m);
    assert Step(states[m], acts[m], states[m + 1]);
    StepAnswers(states[m], acts[m], c, o);
  }

  /**
     In every run, for every operation and every answer: a call has answer `o` if and only if an earlier
     step of its own decided so. `Decides` lists those steps.
   */
  lemma {:induction false} AnswerIff(capacity: nat, states: seq<State>, acts: seq<Action>,
                                     i: nat, c: CallId, o: Outcome)
    requires IsRun(capacity, states, acts) && i < |states|
    ensures HasAnswer(states[i], c, o) <==> IsDecided(states, acts, i, c, o)
  {
    if i > 0 {
      AnswerIff(capacity, states, acts, i - 1, c, o);
      AnswerInRun(capacity, states, acts, i - 1, c, o);
    }
  }
}
