/** What every step of the channel keeps: the lock, the queue's history, and each call's own story. */
module ChannelSafety {
  import opened Wrappers
  import opened Channel

  ghost predicate LockOk(s: State) {
    && (s.owner.Some? ==> s.owner.value in s.calls && Holds(s.calls[s.owner.value].pc))
    && (forall c :: c in s.calls && Holds(s.calls[c].pc) ==> s.owner == Some(c))
  }

  /** The reason recorded for a wait's end is the true one as long as the lock is held. */
  ghost predicate WhyOk(s: State, op: Op, why: Why) {
    && !op.WaitForMessage?
    && if op == Receive(Once) then why == Unwaited
       else
         && why != Unwaited
         && (why == QueueReady <==> Ready(s, op))
         && (why == Closing ==> s.dropping)
         && (op.mode == Once ==> why == QueueReady)
  }

  /** Only outcomes of the operation at hand; a failed send hands back its own item. */
  ghost predicate OutcomeOk(op: Op, outcome: Outcome) {
    match outcome
    case Received(_) => op.Receive?
    case NoItem => op == Receive(Forever)
    case NoSenders => op == Receive(Until) || op == Receive(Once)
    case ReceiveTimedOut => op == Receive(Until) || op == Receive(Once)
    case Sent => op.Send?
    case Refused(item) => op.Send? && op.item == item
    case SendTimedOut(item) => op.Send? && op.mode != Forever && op.item == item
    case MessageThere => op.WaitForMessage?
    case WaitTimedOut => op.WaitForMessage?
    case QueueDropped => op.WaitForMessage?
    case Panicked => op.Send? || op == Receive(Until)
  }

  ghost predicate Waits(op: Op) {
    op.WaitForMessage? || op.mode != Once
  }

  ghost predicate LocalOk(s: State, op: Op, pc: Pc) {
    match pc
    case Entry => true
    case Locking => true
    case CheckQueue(expired) => op != Receive(Once) && (expired ==> Timed(op))
    case CheckPeers(expired) => op.WaitForMessage? == false && Waits(op) && !Ready(s, op) && (expired ==> Timed(op))
    case CheckClosing(expired) => Waits(op) && !Ready(s, op) && (expired ==> Timed(op))
    case GoToSleep => Waits(op) && !Ready(s, op)
    case Sleeping => Waits(op)
    case Woken(expired) => Waits(op) && (expired ==> Timed(op))
    case RecheckPeers(why) => op != Receive(Forever) && WhyOk(s, op, why) && (why == Unwaited ==> !Ready(s, op))
    case RecheckClosing(why) => op != Receive(Forever) && WhyOk(s, op, why) && (why == Unwaited ==> !Ready(s, op))
    case Act(why) => WhyOk(s, op, why) && (why == Closing ==> op == Receive(Forever))
    case Notify(outcome) => OutcomeOk(op, outcome) && (outcome.Sent? || outcome.Received?)
    case Unlock(outcome) => OutcomeOk(op, outcome)
    case Done(outcome) => OutcomeOk(op, outcome)
  }

  ghost predicate QueueOk(s: State) {
    && s.pushed == s.popped + s.queue
    && |s.takers| == |s.popped|
    && |s.queue| <= s.room
    && s.capacity <= s.room
  }

  ghost predicate Basic(s: State) {
    && LockOk(s)
    && QueueOk(s)
    && forall c :: c in s.calls ==> LocalOk(s, s.calls[c].op, s.calls[c].pc)
  }

  lemma BasicInit(capacity: nat)
    ensures Basic(Init(capacity))
  {
  }

  /** Call `c` took a step (or began); others at most went from asleep to woken. */
  ghost predicate OneMoved(s: State, s': State, c: CallId) {
    && c in s'.calls
    && (forall d :: d in s'.calls <==> d in s.calls || d == c)
    && forall d :: d in s.calls && d != c ==> Undisturbed(s.calls[d], s'.calls[d])
  }

  ghost predicate Undisturbed(before: Call, after: Call) {
    after == before || (before.pc == Sleeping && after == before.(pc := Woken(false)))
  }

  lemma LocalFrame(s: State, s': State, before: Call, after: Call)
    requires LocalOk(s, before.op, before.pc) && Undisturbed(before, after)
    requires Holds(before.pc) ==> s'.queue == s.queue && s'.room == s.room
    requires s.dropping ==> s'.dropping
    ensures LocalOk(s', after.op, after.pc)
  {
  }

  /** What the step does to the stepping call and to the queue is in order. */
  ghost predicate StepOk(s: State, s': State, c: CallId) {
    && OneMoved(s, s', c)
    && QueueOk(s')
    && s'.dropping == s.dropping
    && LocalOk(s', s'.calls[c].op, s'.calls[c].pc)
    && LockRule(s, s', c)
  }

  /** The mutex goes to or from the stepping call only, and only its owner touches the queue. */
  ghost predicate LockRule(s: State, s': State, c: CallId)
    requires c in s'.calls
  {
    && (s.owner == Some(c) || (s'.queue == s.queue && s'.room == s.room))
    && if Holds(s'.calls[c].pc) then s'.owner == Some(c) && (s.owner == None || s.owner == Some(c))
       else s'.owner == if s.owner == Some(c) then None else s.owner
  }

  lemma MoveKeepsBasic(s: State, s': State, c: CallId)
    requires Basic(s) && StepOk(s, s', c)
    ensures Basic(s')
  {
    forall d | d in s'.calls ensures LocalOk(s', s'.calls[d].op, s'.calls[d].pc) {
      if d != c {
        LocalFrame(s, s', s.calls[d], s'.calls[d]);
      }
    }
  }

  lemma ReadByReceive(s: State, op: Op, pc: Pc)
    requires op.Receive? && IsRead(pc) && LocalOk(s, op, pc)
    ensures LocalOk(s, op, AfterRead(s, op, pc))
  {
    assert op.mode == Forever || op.mode == Until || op.mode == Once;
  }

  lemma ReadBySend(s: State, op: Op, pc: Pc)
    requires op.Send? && IsRead(pc) && LocalOk(s, op, pc)
    ensures LocalOk(s, op, AfterRead(s, op, pc))
  {
  }

  lemma ReadByWaiter(s: State, op: Op, pc: Pc)
    requires op.WaitForMessage? && IsRead(pc) && LocalOk(s, op, pc)
    ensures LocalOk(s, op, AfterRead(s, op, pc))
  {
  }

  lemma ReadLocal(s: State, op: Op, pc: Pc)
    requires IsRead(pc) && LocalOk(s, op, pc)
    ensures LocalOk(s, op, AfterRead(s, op, pc))
  {
    match op
    case Receive(_) => ReadByReceive(s, op, pc);
    case Send(_, _) => ReadBySend(s, op, pc);
    case WaitForMessage => ReadByWaiter(s, op, pc);
  }

  lemma ReadKeepsLock(s: State, op: Op, pc: Pc)
    requires IsRead(pc)
    ensures Holds(AfterRead(s, op, pc)) <==> Holds(pc)
  {
  }

  lemma ReadOk(s: State, c: CallId)
    requires Basic(s) && Can(s, Read(c))
    ensures StepOk(s, Do(s, Read(c)), c)
  {
    var call := s.calls[c];
    var pc := AfterRead(s, call.op, call.pc);
    ReadLocal(s, call.op, call.pc);
    ReadKeepsLock(s, call.op, call.pc);
    LocalFrameAfter(s, DoRead(s, c), call.op, pc);
    assert DoRead(s, c).calls[c] == call.(pc := pc);
  }

  lemma LocalFrameAfter(s: State, s': State, op: Op, pc: Pc)
    requires LocalOk(s, op, pc)
    requires s'.queue == s.queue && s'.room == s.room && s'.dropping == s.dropping
    ensures LocalOk(s', op, pc)
  {
  }

  lemma PopOk(s: State, a: Action)
    requires Basic(s) && Can(s, a)
    requires a.PushOrPop? && s.calls[a.c].op.Receive?
    ensures StepOk(s, Do(s, a), a.c)
  {
    var call := s.calls[a.c];
    assert LocalOk(s, call.op, call.pc);
    var s' := Do(s, a);
    assert QueueOk(s') by {
      if s.queue != [] {
        assert s.queue == [s.queue[0]] + s.queue[1..];
      }
    }
    if s.queue == [] {
      assert s'.queue == s.queue && s'.calls[a.c].op == call.op;
      assert LocalOk(s', call.op, AfterEmptyPop(call.op.mode)) by {
        assert call.op.mode == Forever || call.op.mode == Until || call.op.mode == Once;
      }
    }
  }

  lemma PushOk(s: State, a: Action)
    requires Basic(s) && Can(s, a)
    requires (a.PushOrPop? && s.calls[a.c].op.Send?) || a.Grow? || a.GrowFails?
    ensures StepOk(s, Do(s, a), a.c)
  {
    assert LocalOk(s, s.calls[a.c].op, s.calls[a.c].pc);
    assert QueueOk(Do(s, a));
  }

  lemma SignalOk(s: State, a: Action)
    requires Basic(s) && Can(s, a) && a.Signal?
    ensures StepOk(s, Do(s, a), a.c)
  {
    assert LocalOk(s, s.calls[a.c].op, s.calls[a.c].pc);
    assert a.c !in a.chosen;
  }

  lemma LockTaken(s: State, c: CallId)
    requires Basic(s) && Can(s, Lock(c))
    ensures StepOk(s, Do(s, Lock(c)), c)
  {
  }

  lemma LockRefused(s: State, c: CallId)
    requires Basic(s) && Can(s, LockFails(c))
    ensures StepOk(s, Do(s, LockFails(c)), c)
  {
    var op := s.calls[c].op;
    if op.WaitForMessage? || op.mode != Forever {
      TimeoutOk(op);
    }
  }

  lemma TimeoutOk(op: Op)
    requires op.WaitForMessage? || op.mode != Forever
    ensures OutcomeOk(op, OnTimeout(op))
  {
    assert op.Receive? ==> op.mode == Until || op.mode == Once;
  }

  lemma LockRegained(s: State, c: CallId)
    requires Basic(s) && Can(s, Reacquire(c))
    ensures StepOk(s, Do(s, Reacquire(c)), c)
  {
    assert LocalOk(s, s.calls[c].op, s.calls[c].pc);
  }

  lemma LockingOk(s: State, a: Action)
    requires Basic(s) && Can(s, a)
    requires a.Lock? || a.LockFails? || a.Reacquire?
    ensures StepOk(s, Do(s, a), a.c)
  {
    match a
    case Lock(c) => LockTaken(s, c);
    case LockFails(c) => LockRefused(s, c);
    case Reacquire(c) => LockRegained(s, c);
  }

  lemma LockGivenUp(s: State, a: Action)
    requires Basic(s) && Can(s, a)
    requires a.Sleep? || a.Release?
    ensures StepOk(s, Do(s, a), a.c)
  {
    assert LocalOk(s, s.calls[a.c].op, s.calls[a.c].pc);
  }

  lemma WakingOk(s: State, a: Action)
    requires Basic(s) && Can(s, a)
    requires a.Wake? || a.Expire?
    ensures StepOk(s, Do(s, a), a.c)
  {
    assert LocalOk(s, s.calls[a.c].op, s.calls[a.c].pc);
  }

  lemma CallStepOk(s: State, a: Action)
    requires Basic(s) && Can(s, a) && IsCallAction(a)
    ensures StepOk(s, Do(s, a), a.c)
  {
    if a.Read? {
      ReadOk(s, a.c);
    } else if a.PushOrPop? && s.calls[a.c].op.Receive? {
      PopOk(s, a);
    } else if a.PushOrPop? || a.Grow? || a.GrowFails? {
      PushOk(s, a);
    } else if a.Signal? {
      SignalOk(s, a);
    } else if a.Lock? || a.LockFails? || a.Reacquire? {
      LockingOk(s, a);
    } else if a.Sleep? || a.Release? {
      LockGivenUp(s, a);
    } else if !a.Start? {
      WakingOk(s, a);
    }
  }

  lemma BasicCall(s: State, a: Action)
    requires Basic(s) && Can(s, a) && IsCallAction(a)
    ensures Basic(Do(s, a))
  {
    CallStepOk(s, a);
    MoveKeepsBasic(s, Do(s, a), a.c);
  }

  /** A step of a handle leaves the queue and the lock alone and at most wakes sleepers. */
  ghost predicate CallsKept(s: State, s': State) {
    && s'.calls.Keys == s.calls.Keys
    && (forall c :: c in s.calls ==> Undisturbed(s.calls[c], s'.calls[c]))
    && s' == s.(calls := s'.calls, handles := s'.handles, senders := s'.senders, receivers := s'.receivers,
                dropping := s'.dropping, refs := s'.refs, freed := s'.freed)
    && (s.dropping ==> s'.dropping)
  }

  lemma MakingKeepsCalls(s: State, a: Action)
    requires IsMaking(a) && CanHandle(s, a)
    ensures CallsKept(s, DoMake(s, a)) && DoMake(s, a).calls == s.calls
  {
  }

  lemma BroadcastKeepsCalls(s: State, h: HandleId)
    requires h in s.handles && s.handles[h].phase == Waking
    ensures CallsKept(s, DoWindDown(s, Broadcast(h)))
  {
  }

  lemma LoopKeepsCalls(s: State, a: Action)
    requires (a.LoadCount? || a.SwapOk? || a.SwapFails?) && CanHandle(s, a)
    ensures CallsKept(s, DoWindDown(s, a)) && DoWindDown(s, a).calls == s.calls
  {
  }

  lemma ReleaseKeepsCalls(s: State, h: HandleId)
    requires h in s.handles && s.handles[h].phase == Releasing
    ensures CallsKept(s, DoWindDown(s, DropRef(h))) && DoWindDown(s, DropRef(h)).calls == s.calls
  {
  }

  lemma DestructionKeepsCalls(s: State, h: HandleId)
    requires h in s.handles && IsDestruction(s.handles[h].phase)
    ensures CallsKept(s, DoDestroy(s, h))
  {
    if s.handles[h].phase.WakeReceivers? || s.handles[h].phase.WakeSenders? {
      DestructionWakesOnly(s, h);
    }
  }

  lemma DestructionWakesOnly(s: State, h: HandleId)
    requires h in s.handles && IsDestruction(s.handles[h].phase)
    requires s.handles[h].phase.WakeReceivers? || s.handles[h].phase.WakeSenders?
    ensures CallsKept(s, DoDestroy(s, h))
  {
  }

  /** A step of the destruction leaves the calls alone or wakes all sleepers of one condition variable. */
  lemma DestructionWakes(s: State, h: HandleId)
    requires h in s.handles && IsDestruction(s.handles[h].phase)
    ensures var s' := DoDestroy(s, h);
            || s'.calls == s.calls
            || s'.calls == WakeCalls(s.calls, Sleepers(s, s.handles[h].phase.WakeSenders?))
  {
  }

  lemma HandleStepKeepsCalls(s: State, a: Action)
    requires Can(s, a) && !IsCallAction(a)
    ensures CallsKept(s, Do(s, a))
  {
    if IsMaking(a) {
      MakingKeepsCalls(s, a);
    } else if a.Destroy? {
      DestructionKeepsCalls(s, a.h);
    } else if a.Broadcast? {
      BroadcastKeepsCalls(s, a.h);
    } else if a.DropRef? {
      ReleaseKeepsCalls(s, a.h);
    } else {
      LoopKeepsCalls(s, a);
    }
  }

  lemma BasicHandle(s: State, a: Action)
    requires Basic(s) && Can(s, a) && !IsCallAction(a)
    ensures Basic(Do(s, a))
  {
    HandleStepKeepsCalls(s, a);
    CallsKeptBasic(s, Do(s, a));
  }

  lemma CallsKeptBasic(s: State, s': State)
    requires Basic(s) && CallsKept(s, s')
    ensures Basic(s')
  {
    forall c | c in s'.calls ensures LocalOk(s', s'.calls[c].op, s'.calls[c].pc) {
      LocalFrame(s, s', s.calls[c], s'.calls[c]);
    }
  }

  lemma BasicStep(s: State, a: Action)
    requires Basic(s) && Can(s, a)
    ensures Basic(Do(s, a))
  {
    if IsCallAction(a) {
      BasicCall(s, a);
    } else {
      BasicHandle(s, a);
    }
  }

  lemma OthersUndisturbed(s: State, a: Action)
    requires Basic(s) && Can(s, a)
    ensures forall c :: c in s.calls && !(IsCallAction(a) && c == a.c) ==>
              c in Do(s, a).calls && Undisturbed(s.calls[c], Do(s, a).calls[c])
    ensures forall c :: c in Do(s, a).calls && !(IsCallAction(a) && c == a.c) ==> c in s.calls
  {
    if IsCallAction(a) {
      CallStepOk(s, a);
    } else {
      HandleStepKeepsCalls(s, a);
    }
  }

  /** The recorded reason why a call's wait ended, until it acts on it. */
  function PassedBecause(pc: Pc): Option<Why> {
    if pc.RecheckPeers? || pc.RecheckClosing? || pc.Act? then Some(pc.why) else None
  }

  /** Points that a call comes to only by reading, and asleep, that it comes to only by `Sleep`. */
  ghost predicate Undecided(a: Action, pc: Pc) {
    && !pc.CheckPeers? && !pc.CheckClosing? && !pc.GoToSleep? && PassedBecause(pc) != Some(PeersGone)
    && (pc == Sleeping ==> a.Sleep?)
  }

  lemma LockingDecidesNothing(s: State, a: Action)
    requires (a.Start? || a.Lock? || a.LockFails? || a.Reacquire?) && CanCall(s, a)
    ensures a.c in DoCall(s, a).calls && Undecided(a, DoCall(s, a).calls[a.c].pc)
  {
  }

  lemma SleepingDecidesNothing(s: State, a: Action)
    requires (a.Sleep? || a.Wake? || a.Expire?) && CanCall(s, a)
    ensures a.c in DoCall(s, a).calls && Undecided(a, DoCall(s, a).calls[a.c].pc)
  {
  }

  lemma TransferDecidesNothing(s: State, a: Action)
    requires (a.PushOrPop? || a.Grow? || a.GrowFails?) && CanCall(s, a)
    ensures a.c in DoCall(s, a).calls && Undecided(a, DoCall(s, a).calls[a.c].pc)
  {
  }

  lemma LeavingDecidesNothing(s: State, a: Action)
    requires (a.Signal? || a.Release?) && CanCall(s, a)
    ensures a.c in DoCall(s, a).calls && Undecided(a, DoCall(s, a).calls[a.c].pc)
  {
  }

  lemma OnlyReadingDecides(s: State, a: Action)
    requires IsCallAction(a) && !a.Read? && CanCall(s, a)
    ensures a.c in DoCall(s, a).calls && Undecided(a, DoCall(s, a).calls[a.c].pc)
  {
    if a.Start? || a.Lock? || a.LockFails? || a.Reacquire? {
      LockingDecidesNothing(s, a);
    } else if a.Sleep? || a.Wake? || a.Expire? {
      SleepingDecidesNothing(s, a);
    } else if a.Signal? || a.Release? {
      LeavingDecidesNothing(s, a);
    } else {
      TransferDecidesNothing(s, a);
    }
  }

  /** What a reading decides. */
  lemma ReadDecides(s: State, op: Op, pc: Pc)
    requires IsRead(pc) && LocalOk(s, op, pc)
    ensures var pc' := AfterRead(s, op, pc);
            && pc' != Sleeping
            && (pc'.GoToSleep? ==> pc == CheckClosing(false) && !s.dropping)
            && (pc'.CheckClosing? && !op.WaitForMessage? ==> pc == CheckPeers(pc'.expired) && Peers(s, op.Send?) > 0)
            && (PassedBecause(pc') == Some(PeersGone) ==>
                  PassedBecause(pc) == Some(PeersGone) || (pc.CheckPeers? && Peers(s, op.Send?) == 0))
  {
  }

  /** `PeersGone` is recorded only by reading a zero count. */
  lemma PassedStep(s: State, a: Action)
    requires Basic(s) && IsCallAction(a) && CanCall(s, a) && a.c in DoCall(s, a).calls
    ensures PassedBecause(DoCall(s, a).calls[a.c].pc) == Some(PeersGone) ==>
              && a.Read?
              && var call := s.calls[a.c];
                 || PassedBecause(call.pc) == Some(PeersGone)
                 || (call.pc.CheckPeers? && Peers(s, call.op.Send?) == 0)
  {
    if a.Read? {
      ReadDecides(s, s.calls[a.c].op, s.calls[a.c].pc);
      assert DoRead(s, a.c).calls[a.c].pc == AfterRead(s, s.calls[a.c].op, s.calls[a.c].pc);
    } else {
      OnlyReadingDecides(s, a);
    }
  }

  /** Only `Sleep` puts a call to sleep. */
  lemma OnlySleepSleeps(s: State, a: Action)
    requires Basic(s) && IsCallAction(a) && CanCall(s, a) && a.c in DoCall(s, a).calls
    ensures DoCall(s, a).calls[a.c].pc == Sleeping ==> a.Sleep?
  {
    if a.Read? {
      ReadDecides(s, s.calls[a.c].op, s.calls[a.c].pc);
      assert DoRead(s, a.c).calls[a.c].pc == AfterRead(s, s.calls[a.c].op, s.calls[a.c].pc);
    } else {
      OnlyReadingDecides(s, a);
    }
  }

  lemma PathKeepsBasic(states: seq<State>, acts: seq<Action>, i: nat)
    requires IsPath(states, acts) && i < |states| && Basic(states[0])
    ensures Basic(states[i])
  {
    forall m | 0 <= m < i && Basic(states[m]) ensures Basic(states[m + 1]) {
      assert Step(states[m], acts[m], states[m + 1]);
      BasicStep(states[m], acts[m]);
    }
    KeptAlong(states, 0, i, s => Basic(s));
  }

  lemma RunKeepsBasic(capacity: nat, states: seq<State>, acts: seq<Action>, i: nat)
    requires IsRun(capacity, states, acts) && i < |states|
    ensures Basic(states[i])
  {
    BasicInit(capacity);
    PathKeepsBasic(states, acts, i);
  }
}
