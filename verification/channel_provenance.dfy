/**
 How a call comes to each point: its last step before, and what it then found. From this follows what
 a call must have read before it sleeps, pushes, pops or gives up at its deadline.
 */
module ChannelProvenance {
  import opened Wrappers
  import opened Channel
  import opened ChannelSafety
  import opened ChannelLifetimes
  import opened ChannelBounds
  import opened ChannelAnswers

  // ----- One step -----------------------------------------------------------------------------

  function PeersOf(s: State, op: Op): nat {
    if op.Send? then s.receivers else s.senders
  }

  /** There is an item for a receive or a waiter, or room for a send. */
  predicate IsThere(s: State, op: Op) {
    if op.Send? then |s.queue| < s.room else s.queue != []
  }

  /** A reading at `pc` by which a wait ends for this reason. */
  predicate EndsWait(s: State, op: Op, pc: Pc, why: Why) {
    !op.WaitForMessage?
    && match why
       case QueueReady => pc.CheckQueue? && IsThere(s, op)
       case PeersGone => pc.CheckPeers? && PeersOf(s, op) == 0
       case Closing => pc.CheckClosing? && s.dropping
       case Unwaited => false
  }

  /** A reading at `pc` by which a call of `op` comes to `next`; for answers see `Decides`. */
  predicate ReadingLeads(s: State, op: Op, pc: Pc, next: Pc) {
    match next
    case Locking => pc.Entry? && !s.dropping
    case CheckPeers(late) => pc == CheckQueue(late) && !IsThere(s, op) && !op.WaitForMessage? && op.mode != Once
    case CheckClosing(late) =>
      if op.WaitForMessage? then pc == CheckQueue(late) && !IsThere(s, op)
      else pc == CheckPeers(late) && PeersOf(s, op) > 0
    case GoToSleep => pc == CheckClosing(false) && !s.dropping
    case RecheckPeers(why) => op != Receive(Forever) && EndsWait(s, op, pc, why)
    case RecheckClosing(why) => pc == RecheckPeers(why) && PeersOf(s, op) > 0
    case Act(why) =>
      if op == Receive(Forever) then EndsWait(s, op, pc, why)
      else op != Receive(Once) && pc == RecheckClosing(why) && !s.dropping
    case _ => OutcomeOf(next).Some?
  }

  /** After step `a` its call, which was at `pc`, may be found at `next` until it steps again. */
  predicate StepLeads(s: State, a: Action, op: Op, pc: Pc, next: Pc) {
    match a
    case Read(_) => ReadingLeads(s, op, pc, next)
    case Lock(_) => next == if op == Receive(Once) then Act(Unwaited) else CheckQueue(false)
    case LockFails(_) =>
      if op.WaitForMessage? || op.mode != Forever then OutcomeOf(next).Some? else next == Entry
    case Sleep(_) => next == Sleeping || next == Woken(false)
    case Wake(_) => next == Woken(false)
    case Expire(_) => next == Woken(true)
    case Reacquire(_) => pc.Woken? && next == CheckQueue(pc.expired)
    case PushOrPop(_) =>
      if op == Receive(Once) && s.queue == [] then next == RecheckPeers(Unwaited) else OutcomeOf(next).Some?
    case _ => OutcomeOf(next).Some?
  }

  /** With `s` and `a` the state and the step of the call's last step, it is at `next` now. */
  ghost predicate CameFrom(s: State, a: Action, c: CallId, op: Op, next: Pc) {
    if a.Start? then next == Entry && a.op == op
    else c in s.calls && s.calls[c].op == op && StepLeads(s, a, op, s.calls[c].pc, next)
  }

  lemma ReadComesTo(s: State, op: Op, pc: Pc)
    requires IsRead(pc) && LocalOk(s, op, pc)
    ensures ReadingLeads(s, op, pc, AfterRead(s, op, pc))
  {
    assert op.Receive? ==> op.mode == Forever || op.mode == Until || op.mode == Once;
  }

  lemma ReaderComesTo(s: State, c: CallId)
    requires Basic(s) && CanCall(s, Read(c))
    ensures ReadingLeads(s, s.calls[c].op, s.calls[c].pc, DoCall(s, Read(c)).calls[c].pc)
  {
    ReadComesTo(s, s.calls[c].op, s.calls[c].pc);
    assert DoRead(s, c).calls[c].pc == AfterRead(s, s.calls[c].op, s.calls[c].pc);
  }

  lemma LockerComesTo(s: State, a: Action)
    requires (a.Lock? || a.LockFails? || a.Reacquire?) && CanCall(s, a)
    ensures StepLeads(s, a, s.calls[a.c].op, s.calls[a.c].pc, DoCall(s, a).calls[a.c].pc)
  {
  }

  lemma SleeperComesTo(s: State, a: Action)
    requires (a.Sleep? || a.Wake? || a.Expire?) && CanCall(s, a)
    ensures StepLeads(s, a, s.calls[a.c].op, s.calls[a.c].pc, DoCall(s, a).calls[a.c].pc)
  {
  }

  lemma PopComesTo(s: State, c: CallId)
    requires CanCall(s, PushOrPop(c))
    ensures StepLeads(s, PushOrPop(c), s.calls[c].op, s.calls[c].pc, DoCall(s, PushOrPop(c)).calls[c].pc)
  {
    var op := s.calls[c].op;
    if op.Receive? {
      assert op.mode == Forever || op.mode == Until || op.mode == Once;
      assert DoPop(s, c).calls[c].pc ==
             if s.queue == [] then AfterEmptyPop(op.mode) else Notify(Received(s.queue[0]));
    }
  }

  lemma LeaverComesTo(s: State, a: Action)
    requires (a.Grow? || a.GrowFails? || a.Signal? || a.Release?) && CanCall(s, a)
    ensures StepLeads(s, a, s.calls[a.c].op, s.calls[a.c].pc, DoCall(s, a).calls[a.c].pc)
  {
  }

  lemma OwnStepComesTo(s: State, a: Action)
    requires Basic(s) && IsCallAction(a) && !a.Start? && CanCall(s, a)
    requires a.c in DoCall(s, a).calls
    ensures StepLeads(s, a, s.calls[a.c].op, s.calls[a.c].pc, DoCall(s, a).calls[a.c].pc)
  {
    if a.Read? {
      ReaderComesTo(s, a.c);
    } else if a.Lock? || a.LockFails? || a.Reacquire? {
      LockerComesTo(s, a);
    } else if a.Sleep? || a.Wake? || a.Expire? {
      SleeperComesTo(s, a);
    } else if a.PushOrPop? {
      PopComesTo(s, a.c);
    } else {
      LeaverComesTo(s, a);
    }
  }

  // ----- Whole runs ---------------------------------------------------------------------------

  /** Step `m` is the last step of call `c` before `i`. */
  ghost predicate LastStep(acts: seq<Action>, i: nat, c: CallId, m: nat)
    requires i <= |acts|
  {
    m < i && IsStepOf(acts[m], c) && forall n :: m < n < i ==> !IsStepOf(acts[n], c)
  }

  ghost predicate CameBy(states: seq<State>, acts: seq<Action>, i: nat, c: CallId, m: nat)
    requires i <= |acts| < |states|
  {
    && c in states[i].calls && LastStep(acts, i, c, m)
    && CameFrom(states[m], acts[m], c, states[i].calls[c].op, states[i].calls[c].pc)
  }

  lemma OwnStepInRun(capacity: nat, states: seq<State>, acts: seq<Action>, i: nat, c: CallId)
    requires IsRun(capacity, states, acts) && i < |acts| && IsStepOf(acts[i], c)
    ensures CameBy(states, acts, i + 1, c, i)
  {
    RunKeepsBasic(capacity, states, acts, i);
    assert Step(states[i], acts[i], states[i + 1]);
    CallStepKeepsHandles(states[i], acts[i]);
    if acts[i].Start? {
      StartComesTo(states[i], acts[i]);
    } else {
      OwnStepComesTo(states[i], acts[i]);
    }
  }

  lemma StartComesTo(s: State, a: Action)
    requires a.Start? && CanCall(s, a)
    ensures a.c in DoCall(s, a).calls && DoCall(s, a).calls[a.c] == Call(a.op, a.h, Entry)
  {
  }

  lemma OtherStepInRun(capacity: nat, states: seq<State>, acts: seq<Action>, i: nat, c: CallId)
    requires IsRun(capacity, states, acts) && i < |acts| && !IsStepOf(acts[i], c) && c in states[i + 1].calls
    ensures c in states[i].calls && Undisturbed(states[i].calls[c], states[i + 1].calls[c])
  {
    RunKeepsBasic(capacity, states, acts, i);
    assert Step(states[i], acts[i], states[i + 1]);
    OthersUndisturbed(states[i], acts[i]);
  }

  lemma StaysCameBy(states: seq<State>, acts: seq<Action>, i: nat, c: CallId, m: nat)
    requires i < |acts| < |states| && CameBy(states, acts, i, c, m)
    requires !IsStepOf(acts[i], c) && c in states[i + 1].calls
    requires Undisturbed(states[i].calls[c], states[i + 1].calls[c])
    ensures CameBy(states, acts, i + 1, c, m)
  {
  }

  /** In every run, every point of a call is where its last step leads, with what it then found. */
  lemma {:induction false} EveryPointIsLedTo(capacity: nat, states: seq<State>, acts: seq<Action>, i: nat, c: CallId)
      returns (m: nat)
    requires IsRun(capacity, states, acts) && i < |states| && c in states[i].calls
    ensures CameBy(states, acts, i, c, m)
  {
    if IsStepOf(acts[i - 1], c) {
      m := i - 1;
      OwnStepInRun(capacity, states, acts, m, c);
    } else {
      OtherStepInRun(capacity, states, acts, i - 1, c);
      m := EveryPointIsLedTo(capacity, states, acts, i - 1, c);
      StaysCameBy(states, acts, i - 1, c, m);
    }
  }

  // ----- What a call has read -----------------------------------------------------------------

  ghost predicate LastRead(states: seq<State>, acts: seq<Action>, i: nat, c: CallId, m: nat)
    requires i <= |acts| < |states|
  {
    LastStep(acts, i, c, m) && acts[m] == Read(c) && c in states[m].calls
  }

  /** A call takes the mutex only if in its last step it has read `dropping` unset. */
  lemma LocksOnlyWhenOpen(capacity: nat, states: seq<State>, acts: seq<Action>, i: nat, c: CallId) returns (m: nat)
    requires IsRun(capacity, states, acts) && i < |acts| && acts[i] == Lock(c)
    ensures LastRead(states, acts, i, c, m) && !states[m].dropping
  {
    assert Step(states[i], acts[i], states[i + 1]);
    m := EveryPointIsLedTo(capacity, states, acts, i, c);
  }

  /**
     The last steps of call `c` before `i`: at `m` it found nothing to be had, and then, unless it is a
     waiter, that it has peers. `late` tells whether its deadline had passed.
   */
  ghost predicate HasLookedInVain(states: seq<State>, acts: seq<Action>, i: nat, c: CallId, op: Op, late: bool, m: nat)
    requires i <= |acts| < |states|
  {
    if op.WaitForMessage? then FoundNothing(states, acts, i, c, op, late, m)
    else exists p: nat :: FoundPeers(states, acts, i, c, op, p) && FoundNothing(states, acts, p, c, op, late, m)
  }

  ghost predicate FoundNothing(states: seq<State>, acts: seq<Action>, i: nat, c: CallId, op: Op, late: bool, m: nat)
    requires i <= |acts| < |states|
  {
    LastRead(states, acts, i, c, m) && states[m].calls[c].pc == CheckQueue(late) && !IsThere(states[m], op)
  }

  ghost predicate FoundPeers(states: seq<State>, acts: seq<Action>, i: nat, c: CallId, op: Op, p: nat)
    requires i <= |acts| < |states|
  {
    LastRead(states, acts, i, c, p) && p <= i && PeersOf(states[p], op) > 0
  }

  lemma CheckingClosingHasLooked(capacity: nat, states: seq<State>, acts: seq<Action>, i: nat, c: CallId)
      returns (m: nat)
    requires IsRun(capacity, states, acts) && i < |states|
    requires c in states[i].calls && states[i].calls[c].pc.CheckClosing?
    ensures HasLookedInVain(states, acts, i, c, states[i].calls[c].op, states[i].calls[c].pc.expired, m) && m < i
    ensures c in states[m].calls && states[m].calls[c].op == states[i].calls[c].op
  {
    var op := states[i].calls[c].op;
    m := EveryPointIsLedTo(capacity, states, acts, i, c);
    if !op.WaitForMessage? {
      var p := m;
      assert FoundPeers(states, acts, i, c, op, p);
      m := EveryPointIsLedTo(capacity, states, acts, p, c);
    }
  }

  /** A call goes to sleep only after it has read, one after the other: nothing there, peers, no destruction. */
  lemma LooksBeforeSleeping(capacity: nat, states: seq<State>, acts: seq<Action>, i: nat, c: CallId)
      returns (closing: nat, m: nat)
    requires IsRun(capacity, states, acts) && i < |states|
    requires c in states[i].calls && states[i].calls[c].pc == GoToSleep
    ensures LastRead(states, acts, i, c, closing) && !states[closing].dropping && closing <= i
    ensures HasLookedInVain(states, acts, closing, c, states[i].calls[c].op, false, m)
  {
    closing := EveryPointIsLedTo(capacity, states, acts, i, c);
    m := CheckingClosingHasLooked(capacity, states, acts, closing, c);
  }

  /**
     A send, or a receive with a deadline, acts only after it has read, one after the other: a reason to
     stop waiting, peers, no destruction.
   */
  lemma LooksBeforeActing(capacity: nat, states: seq<State>, acts: seq<Action>, i: nat, c: CallId)
      returns (closing: nat, peers: nat, m: nat)
    requires IsRun(capacity, states, acts) && i < |states|
    requires c in states[i].calls && states[i].calls[c].pc.Act?
    requires states[i].calls[c].op.Send? || states[i].calls[c].op == Receive(Until)
    ensures LastRead(states, acts, i, c, closing) && !states[closing].dropping && closing <= i
    ensures LastRead(states, acts, closing, c, peers) && peers <= closing
    ensures PeersOf(states[peers], states[i].calls[c].op) > 0
    ensures LastRead(states, acts, peers, c, m)
    ensures EndsWait(states[m], states[i].calls[c].op, states[m].calls[c].pc, states[i].calls[c].pc.why)
  {
    closing := EveryPointIsLedTo(capacity, states, acts, i, c);
    peers := EveryPointIsLedTo(capacity, states, acts, closing, c);
    m := EveryPointIsLedTo(capacity, states, acts, peers, c);
  }

  // ----- Deadlines ----------------------------------------------------------------------------

  /** At step `m` the call reads `dropping` unset, having looked in vain since its deadline passed. */
  ghost predicate GivesUp(states: seq<State>, acts: seq<Action>, m: nat, c: CallId, op: Op)
    requires m < |acts| < |states|
  {
    && acts[m] == Read(c) && c in states[m].calls && states[m].calls[c].pc == CheckClosing(true)
    && !states[m].dropping
    && exists n: nat, e: nat :: HasLookedInVain(states, acts, m, c, op, true, n) && HasExpired(acts, n, c, e)
  }

  /** The last two steps of the call before `n`: its deadline passed at `e`, then it took the mutex again. */
  ghost predicate HasExpired(acts: seq<Action>, n: nat, c: CallId, e: nat) {
    n <= |acts| && exists r: nat :: r <= n && LastStep(acts, n, c, r) && acts[r] == Reacquire(c)
                      && LastStep(acts, r, c, e) && acts[e] == Expire(c)
  }

  /** The answer of an operation whose time is up. */
  function TimeUp(op: Op): Outcome {
    match op
    case Receive(_) => ReceiveTimedOut
    case Send(_, item) => SendTimedOut(item)
    case WaitForMessage => WaitTimedOut
  }

  lemma LateCheckHasExpired(capacity: nat, states: seq<State>, acts: seq<Action>, n: nat, c: CallId) returns (e: nat)
    requires IsRun(capacity, states, acts) && n < |states|
    requires c in states[n].calls && states[n].calls[c].pc == CheckQueue(true)
    ensures HasExpired(acts, n, c, e)
  {
    var r := EveryPointIsLedTo(capacity, states, acts, n, c);
    e := EveryPointIsLedTo(capacity, states, acts, r, c);
  }

  lemma LateReaderGivesUp(capacity: nat, states: seq<State>, acts: seq<Action>, m: nat, c: CallId)
    requires IsRun(capacity, states, acts) && m < |acts| && acts[m] == Read(c)
    requires c in states[m].calls && states[m].calls[c].pc == CheckClosing(true) && !states[m].dropping
    ensures GivesUp(states, acts, m, c, states[m].calls[c].op)
  {
    var n := CheckingClosingHasLooked(capacity, states, acts, m, c);
    var e := LateCheckHasExpired(capacity, states, acts, n, c);
  }

  /**
     An operation with a deadline reports its time as up if and only if an attempt of its own to lock
     failed, or its deadline passed while it slept and it then looked in vain, with peers there and
     nothing being destroyed.
   */
  lemma TimeUpIff(capacity: nat, states: seq<State>, acts: seq<Action>, i: nat, c: CallId)
    requires IsRun(capacity, states, acts) && i < |states|
    requires c in states[i].calls && Timed(states[i].calls[c].op)
    ensures HasAnswer(states[i], c, TimeUp(states[i].calls[c].op)) <==>
              exists m :: 0 <= m < i && (acts[m] == LockFails(c) || GivesUp(states, acts, m, c, states[i].calls[c].op))
  {
    var op := states[i].calls[c].op;
    AnswerIff(capacity, states, acts, i, c, TimeUp(op));
    if m :| 0 <= m < i && Decides(states[m], acts[m], c, TimeUp(op)) {
      SameOperation(capacity, states, acts, m, i, c);
      if acts[m].Read? {
        LateReaderGivesUp(capacity, states, acts, m, c);
      }
    }
    if m :| 0 <= m < i && (acts[m] == LockFails(c) || GivesUp(states, acts, m, c, op)) {
      assert Step(states[m], acts[m], states[m + 1]);
      SameOperation(capacity, states, acts, m, i, c);
      assert Decides(states[m], acts[m], c, TimeUp(op));
    }
  }

  predicate DoesOperation(s: State, c: CallId, op: Op) {
    c in s.calls && s.calls[c].op == op
  }

  lemma OperationStays(s: State, a: Action, c: CallId, op: Op)
    requires Basic(s) && Can(s, a) && DoesOperation(s, c, op)
    ensures DoesOperation(Do(s, a), c, op)
  {
    if IsStepOf(a, c) {
      assert !a.Start?;
      CallStepKeepsHandles(s, a);
    } else {
      OthersUndisturbed(s, a);
      assert Undisturbed(s.calls[c], Do(s, a).calls[c]);
    }
  }

  lemma SameOperation(capacity: nat, states: seq<State>, acts: seq<Action>, m: nat, i: nat, c: CallId)
    requires IsRun(capacity, states, acts) && m <= i < |states| && c in states[m].calls
    ensures c in states[i].calls && states[i].calls[c].op == states[m].calls[c].op
  {
    var op := states[m].calls[c].op;
    forall n | m <= n < i && DoesOperation(states[n], c, op) ensures DoesOperation(states[n + 1], c, op) {
      RunKeepsBasic(capacity, states, acts, n);
      assert Step(states[n], acts[n], states[n + 1]);
      OperationStays(states[n], acts[n], c, op);
    }
    KeptAlong(states, m, i, s => DoesOperation(s, c, op));
  }

  // ----- After the deadline -------------------------------------------------------------------

  /** Awake since its deadline passed. */
  predicate IsPastDeadline(s: State, c: CallId) {
    c in s.calls
    && var pc := s.calls[c].pc;
       || pc == Woken(true) || pc == CheckQueue(true) || pc == CheckPeers(true) || pc == CheckClosing(true)
       || PassedBecause(pc).Some? || OutcomeOf(pc).Some?
  }

  lemma PastDeadlineReads(s: State, op: Op, pc: Pc, next: Pc)
    requires IsRead(pc) && ReadingLeads(s, op, pc, next)
    requires pc == CheckQueue(true) || pc == CheckPeers(true) || pc == CheckClosing(true) || PassedBecause(pc).Some?
    ensures next == CheckPeers(true) || next == CheckClosing(true) || PassedBecause(next).Some? || OutcomeOf(next).Some?
  {
  }

  lemma PastDeadlineMoves(s: State, a: Action)
    requires Basic(s) && IsCallAction(a) && !a.Start? && CanCall(s, a) && IsPastDeadline(s, a.c)
    requires a.c in DoCall(s, a).calls
    ensures IsPastDeadline(DoCall(s, a), a.c)
  {
    OwnStepComesTo(s, a);
    if a.Read? {
      PastDeadlineReads(s, s.calls[a.c].op, s.calls[a.c].pc, DoCall(s, a).calls[a.c].pc);
    }
  }

  lemma PastDeadlineFrame(s: State, s': State, c: CallId)
    requires IsPastDeadline(s, c) && c in s'.calls && Undisturbed(s.calls[c], s'.calls[c])
    ensures IsPastDeadline(s', c)
  {
  }

  lemma PastDeadlineStep(s: State, a: Action, c: CallId)
    requires Basic(s) && Can(s, a) && IsPastDeadline(s, c)
    ensures IsPastDeadline(Do(s, a), c)
  {
    if IsStepOf(a, c) {
      assert !a.Start?;
      CallStepKeepsHandles(s, a);
      PastDeadlineMoves(s, a);
    } else {
      OthersUndisturbed(s, a);
      PastDeadlineFrame(s, Do(s, a), c);
    }
  }

  /** A call whose deadline has passed while it slept does not go to sleep again. */
  lemma NeverSleepsPastDeadline(capacity: nat, states: seq<State>, acts: seq<Action>, e: nat, i: nat, c: CallId)
    requires IsRun(capacity, states, acts) && e < i < |states| && acts[e] == Expire(c)
    ensures c in states[i].calls && states[i].calls[c].pc != GoToSleep && states[i].calls[c].pc != Sleeping
  {
    assert Step(states[e], Expire(c), states[e + 1]);
    assert states[e + 1].calls[c].pc == Woken(true);
    forall n | e < n < i && IsPastDeadline(states[n], c) ensures IsPastDeadline(states[n + 1], c) {
      RunKeepsBasic(capacity, states, acts, n);
      assert Step(states[n], acts[n], states[n + 1]);
      PastDeadlineStep(states[n], acts[n], c);
    }
    KeptAlong(states, e + 1, i, s => IsPastDeadline(s, c));
  }

  // ----- `try_receive_once` with nothing to pop -----------------------------------------------

  /** Has popped nothing, and looks again or has its answer. */
  predicate IsEmptyHanded(s: State, c: CallId) {
    DoesOperation(s, c, Receive(Once))
    && var pc := s.calls[c].pc;
       || pc == RecheckPeers(Unwaited) || pc == RecheckClosing(Unwaited)
       || OutcomeOf(pc) == Some(NoSenders) || OutcomeOf(pc) == Some(ReceiveTimedOut)
  }

  lemma EmptyHandedReads(s: State, pc: Pc, next: Pc)
    requires pc == RecheckPeers(Unwaited) || pc == RecheckClosing(Unwaited)
    requires next == AfterRead(s, Receive(Once), pc)
    ensures next == RecheckClosing(Unwaited) || next == Unlock(NoSenders) || next == Unlock(ReceiveTimedOut)
  {
  }

  lemma EmptyHandedMoves(s: State, a: Action)
    requires IsCallAction(a) && !a.Start? && CanCall(s, a) && IsEmptyHanded(s, a.c)
    requires DoesOperation(DoCall(s, a), a.c, Receive(Once))
    ensures IsEmptyHanded(DoCall(s, a), a.c)
  {
    if a.Read? {
      EmptyHandedReads(s, s.calls[a.c].pc, AfterRead(s, Receive(Once), s.calls[a.c].pc));
      assert DoRead(s, a.c).calls[a.c].pc == AfterRead(s, Receive(Once), s.calls[a.c].pc);
    } else {
      assert a.Signal? || a.Release?;
      AnswerIsKept(s, a, NoSenders);
      AnswerIsKept(s, a, ReceiveTimedOut);
    }
  }

  lemma EmptyHandedStep(s: State, a: Action, c: CallId)
    requires Basic(s) && Can(s, a) && IsEmptyHanded(s, c)
    ensures IsEmptyHanded(Do(s, a), c)
  {
    OperationStays(s, a, c, Receive(Once));
    if IsStepOf(a, c) {
      assert !a.Start?;
      EmptyHandedMoves(s, a);
    } else {
      OthersUndisturbed(s, a);
      assert Undisturbed(s.calls[c], Do(s, a).calls[c]);
    }
  }

  lemma EmptyHandedSince(capacity: nat, states: seq<State>, acts: seq<Action>, k: nat, i: nat, c: CallId)
    requires IsRun(capacity, states, acts) && k < i < |states| && acts[k] == PushOrPop(c)
    requires DoesOperation(states[k], c, Receive(Once)) && states[k].queue == []
    ensures IsEmptyHanded(states[i], c)
  {
    assert Step(states[k], PushOrPop(c), states[k + 1]);
    assert IsEmptyHanded(states[k + 1], c);
    forall n | k < n < i && IsEmptyHanded(states[n], c) ensures IsEmptyHanded(states[n + 1], c) {
      RunKeepsBasic(capacity, states, acts, n);
      assert Step(states[n], acts[n], states[n + 1]);
      EmptyHandedStep(states[n], acts[n], c);
    }
    KeptAlong(states, k + 1, i, s => IsEmptyHanded(s, c));
  }

  /** Looking again, the call reads that there are no senders, or then `dropping` set. */
  predicate SeesEnd(s: State, a: Action, c: CallId) {
    a == Read(c) && c in s.calls
    && ((s.calls[c].pc.RecheckPeers? && s.senders == 0) || (s.calls[c].pc.RecheckClosing? && s.dropping))
  }

  /**
     `try_receive_once` took the mutex and popped nothing: once it has an answer, this is `NoSenders` if
     and only if it has since read that there are no senders, or `dropping`; else it is `ReceiveTimedOut`.
   */
  lemma OnceEndsIff(capacity: nat, states: seq<State>, acts: seq<Action>, k: nat, i: nat, c: CallId)
    requires IsRun(capacity, states, acts) && k < i < |states| && acts[k] == PushOrPop(c)
    requires DoesOperation(states[k], c, Receive(Once)) && states[k].queue == []
    requires c in states[i].calls && OutcomeOf(states[i].calls[c].pc).Some?
    ensures HasAnswer(states[i], c, NoSenders) <==> exists m :: k < m < i && SeesEnd(states[m], acts[m], c)
    ensures HasAnswer(states[i], c, NoSenders) || HasAnswer(states[i], c, ReceiveTimedOut)
  {
    EmptyHandedSince(capacity, states, acts, k, i, c);
    AnswerIff(capacity, states, acts, i, c, NoSenders);
    AnswerIff(capacity, states, acts, k, c, NoSenders);
    assert Step(states[k], PushOrPop(c), states[k + 1]);
    if m :| 0 <= m < i && Decides(states[m], acts[m], c, NoSenders) {
      assert m >= k;
      assert m != k;
      EmptyHandedSince(capacity, states, acts, k, m, c);
      assert SeesEnd(states[m], acts[m], c);
    }
    if m :| k < m < i && SeesEnd(states[m], acts[m], c) {
      EmptyHandedSince(capacity, states, acts, k, m, c);
      assert Decides(states[m], acts[m], c, NoSenders);
    }
  }
}
