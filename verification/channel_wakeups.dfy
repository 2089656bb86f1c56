/**
 No lost wakeup, for items and for room alike (`space` tells them apart): while anyone sleeps on a
 condition variable, there is no more to be had than there are calls already on their way to it,
 plus what earlier calls left behind on their way out.
 */
module ChannelWakeups {
  import opened Wrappers
  import opened FiniteSets
  import opened Channel
  import opened ChannelSafety

  /** Between waking (or locking) and using what it waited for. */
  predicate UnderWay(pc: Pc) {
    pc.Woken? || pc.CheckQueue? || pc.CheckPeers? || pc.CheckClosing? || pc.GoToSleep?
    || pc.RecheckPeers? || pc.RecheckClosing? || pc.Act?
  }

  ghost predicate IsPending(call: Call, space: bool) {
    call.op.Send? == space && Waits(call.op) && UnderWay(call.pc)
  }

  ghost function Pending(s: State, space: bool): set<CallId> {
    set c | c in s.calls && IsPending(s.calls[c], space)
  }

  /** Queued items, or free room. */
  ghost function Available(s: State, space: bool): int {
    if space then s.room - |s.queue| else |s.queue|
  }

  ghost function Stray(s: State, space: bool): nat {
    if space then s.strayRoom else s.strayItems
  }

  /** The lock holder has pushed (popped) and is about to signal. */
  ghost predicate Announcing(s: State, space: bool) {
    s.owner.Some? && s.owner.value in s.calls
    && s.calls[s.owner.value].pc.Notify? && s.calls[s.owner.value].op.Send? != space
  }

  /** While anyone sleeps, at most `left` of what is available has nobody on the way to it. */
  ghost predicate Attended(s: State, space: bool, left: int) {
    Sleepers(s, space) != {} ==>
      Available(s, space) <= |Pending(s, space)| + (if Announcing(s, space) then 1 else 0) + left
  }

  /** Items unconditionally; room as long as the queue has not grown beyond its creation capacity. */
  ghost predicate WakeupsOk(s: State) {
    Attended(s, false, s.strayItems) && (s.room == s.capacity ==> Attended(s, true, s.strayRoom))
  }

  /** What may be left after a step: what was left before, and what the step leaves behind. */
  ghost function LeftAfter(s: State, s': State, space: bool, left: nat): int {
    left + Stray(s', space) - Stray(s, space)
  }

  // ----- The two sets, after one call moved ----------------------------------------------------

  lemma SetsAfterMove(s: State, s': State, c: CallId, space: bool)
    requires c in s'.calls && s'.calls == s.calls[c := s'.calls[c]]
    ensures Pending(s', space) == With(Pending(s, space), c, IsPending(s'.calls[c], space))
    ensures Sleepers(s', space) == With(Sleepers(s, space), c, AsleepOn(s'.calls[c], space))
  {
  }

  lemma SetsAfterWaking(s: State, s': State, chosen: set<CallId>, space: bool, other: bool)
    requires s'.calls == WakeCalls(s.calls, chosen) && chosen <= Sleepers(s, space)
    requires forall c :: c in s.calls ==> LocalOk(s, s.calls[c].op, s.calls[c].pc)
    ensures Sleepers(s', other) == if other == space then Sleepers(s, other) - chosen else Sleepers(s, other)
    ensures Pending(s', other) == if other == space then Pending(s, other) + chosen else Pending(s, other)
    ensures Pending(s, space) !! chosen
  {
    forall c | c in s.calls
      ensures IsPending(s'.calls[c], other) <==> IsPending(s.calls[c], other) || (other == space && c in chosen)
      ensures AsleepOn(s'.calls[c], other) <==> AsleepOn(s.calls[c], other) && !(other == space && c in chosen)
    {
      assert LocalOk(s, s.calls[c].op, s.calls[c].pc);
    }
  }

  /** A step of one call that wakes nobody: enough that nothing is left without someone for it. */
  lemma MoveKeepsAttended(s: State, s': State, c: CallId, space: bool, left: nat)
    requires Attended(s, space, left) && Stray(s', space) >= Stray(s, space)
    requires c in s'.calls && s'.calls == s.calls[c := s'.calls[c]]
    requires var wasPending := c in s.calls && IsPending(s.calls[c], space);
             var gained := (if IsPending(s'.calls[c], space) then 1 else 0) - (if wasPending then 1 else 0)
                         + (if Announcing(s', space) then 1 else 0) - (if Announcing(s, space) then 1 else 0)
                         + Stray(s', space) - Stray(s, space);
             Available(s', space) - Available(s, space) <= gained || Available(s', space) <= 0
    requires AsleepOn(s'.calls[c], space) && !(c in s.calls && AsleepOn(s.calls[c], space)) ==>
               Available(s', space) <= 0
    ensures Attended(s', space, LeftAfter(s, s', space, left))
  {
    SetsAfterMove(s, s', c, space);
  }

  lemma ReadAttended(s: State, c: CallId, space: bool, left: nat)
    requires Basic(s) && Attended(s, space, left) && Can(s, Read(c))
    ensures Attended(Do(s, Read(c)), space, LeftAfter(s, Do(s, Read(c)), space, left))
  {
    var s' := Do(s, Read(c));
    var call := s.calls[c];
    assert LocalOk(s, call.op, call.pc);
    MoveKeepsAttended(s, s', c, space, left);
  }

  /** Signalling turns one announcement into at least one call under way. */
  lemma SignalSets(s: State, c: CallId, chosen: set<CallId>, space: bool)
    requires Basic(s) && Can(s, Signal(c, chosen))
    ensures var s' := Do(s, Signal(c, chosen));
            if space == !s.calls[c].op.Send? then
              && Sleepers(s', space) == Sleepers(s, space) - chosen
              && Pending(s', space) == Pending(s, space) + chosen
              && Pending(s, space) !! chosen
            else Sleepers(s', space) == Sleepers(s, space) && Pending(s', space) == Pending(s, space)
  {
    var woken := s.(calls := WakeCalls(s.calls, chosen));
    SetsAfterWaking(s, woken, chosen, !s.calls[c].op.Send?, space);
    assert c !in chosen && woken.calls[c] == s.calls[c];
    NotifierMoves(woken, Do(s, Signal(c, chosen)), c, space);
  }

  lemma NotifierMoves(s: State, s': State, c: CallId, space: bool)
    requires c in s.calls && s.calls[c].pc.Notify?
    requires s' == MoveTo(s, c, Unlock(s.calls[c].pc.outcome))
    ensures Pending(s', space) == Pending(s, space) && Sleepers(s', space) == Sleepers(s, space)
  {
    SetsAfterMove(s, s', c, space);
    NotifierIsInNeitherSet(s, c, space);
  }

  lemma NotifierIsInNeitherSet(s: State, c: CallId, space: bool)
    requires c in s.calls && s.calls[c].pc.Notify?
    ensures c !in Pending(s, space) && c !in Sleepers(s, space)
  {
  }

  lemma SignalAttended(s: State, c: CallId, chosen: set<CallId>, space: bool, left: nat)
    requires Basic(s) && Attended(s, space, left) && Can(s, Signal(c, chosen))
    ensures Attended(Do(s, Signal(c, chosen)), space, left)
    ensures Stray(Do(s, Signal(c, chosen)), space) == Stray(s, space)
  {
    var s' := Do(s, Signal(c, chosen));
    SignalSets(s, c, chosen, space);
    assert s.owner == Some(c) == s'.owner;
    assert c !in chosen && s'.calls[c].pc.Unlock?;
    assert Available(s', space) == Available(s, space) && Stray(s', space) == Stray(s, space);
    assert Announcing(s, space) <==> space == !s.calls[c].op.Send?;
    assert !Announcing(s', space);
    if Announcing(s, space) {
      assert |Pending(s', space)| == |Pending(s, space)| + |chosen|;
    }
  }

  lemma QueueStepAttended(s: State, a: Action, space: bool, left: nat)
    requires Basic(s) && Attended(s, space, left) && Can(s, a)
    requires a.PushOrPop? || a.GrowFails? || (a.Grow? && !space)
    ensures Attended(Do(s, a), space, LeftAfter(s, Do(s, a), space, left))
  {
    assert LocalOk(s, s.calls[a.c].op, s.calls[a.c].pc);
    assert s.owner == Some(a.c);
    MoveKeepsAttended(s, Do(s, a), a.c, space, left);
  }

  lemma LockStepAttended(s: State, a: Action, space: bool, left: nat)
    requires Basic(s) && Attended(s, space, left) && Can(s, a)
    requires a.Start? || a.Lock? || a.LockFails? || a.Sleep? || a.Wake? || a.Expire? || a.Reacquire? || a.Release?
    ensures Attended(Do(s, a), space, LeftAfter(s, Do(s, a), space, left))
  {
    if !a.Start? {
      assert LocalOk(s, s.calls[a.c].op, s.calls[a.c].pc);
    }
    MoveKeepsAttended(s, Do(s, a), a.c, space, left);
  }

  lemma HandleStepAttended(s: State, a: Action, space: bool, left: nat)
    requires Basic(s) && Attended(s, space, left) && Can(s, a) && !IsCallAction(a)
    ensures Attended(Do(s, a), space, LeftAfter(s, Do(s, a), space, left))
  {
    var s' := Do(s, a);
    HandleStepKeepsCalls(s, a);
    HandleStepWakes(s, a);
    if s'.calls != s.calls {
      var which :| s'.calls == WakeCalls(s.calls, Sleepers(s, which));
      SetsAfterWaking(s, s', Sleepers(s, which), which, space);
    }
  }

  lemma HandleStepWakes(s: State, a: Action)
    requires Can(s, a) && !IsCallAction(a)
    ensures Do(s, a).calls == s.calls || exists which :: Do(s, a).calls == WakeCalls(s.calls, Sleepers(s, which))
  {
    if a.Destroy? {
      DestructionWakes(s, a.h);
    } else if a.Broadcast? {
      assert Do(s, a).calls == WakeCalls(s.calls, Sleepers(s, s.handles[a.h].kind == OfReceiver));
    }
  }

  lemma AttendedStep(s: State, a: Action, space: bool, left: nat)
    requires Basic(s) && Attended(s, space, left) && Can(s, a) && !(a.Grow? && space)
    ensures Attended(Do(s, a), space, LeftAfter(s, Do(s, a), space, left))
  {
    if !IsCallAction(a) {
      HandleStepAttended(s, a, space, left);
    } else if a.Read? {
      ReadAttended(s, a.c, space, left);
    } else if a.Signal? {
      SignalAttended(s, a.c, a.chosen, space, left);
    } else if a.PushOrPop? || a.Grow? || a.GrowFails? {
      QueueStepAttended(s, a, space, left);
    } else {
      LockStepAttended(s, a, space, left);
    }
  }

  // ----- Whole runs ---------------------------------------------------------------------------

  lemma WakeupsStep(s: State, a: Action)
    requires Basic(s) && WakeupsOk(s) && Can(s, a)
    ensures WakeupsOk(Do(s, a))
  {
    AttendedStep(s, a, false, s.strayItems);
    CapacityKept(s, a);
    if Do(s, a).room == s.capacity {
      assert s.room == s.capacity && !a.Grow?;
      AttendedStep(s, a, true, s.strayRoom);
    }
  }

  lemma RunKeepsCapacity(capacity: nat, states: seq<State>, acts: seq<Action>, i: nat)
    requires IsRun(capacity, states, acts) && i < |states|
    ensures states[i].capacity == capacity
  {
    forall m | 0 <= m < i && states[m].capacity == capacity ensures states[m + 1].capacity == capacity {
      RunKeepsBasic(capacity, states, acts, m);
      assert Step(states[m], acts[m], states[m + 1]);
      CapacityKept(states[m], acts[m]);
    }
    KeptAlong(states, 0, i, (s: State) => s.capacity == capacity);
  }

  lemma RunKeepsWakeups(capacity: nat, states: seq<State>, acts: seq<Action>, i: nat)
    requires IsRun(capacity, states, acts) && i < |states|
    ensures Basic(states[i]) && WakeupsOk(states[i]) && states[i].capacity == capacity
  {
    forall m | 0 <= m < i && WakeupsOk(states[m]) ensures WakeupsOk(states[m + 1]) {
      RunKeepsBasic(capacity, states, acts, m);
      assert Step(states[m], acts[m], states[m + 1]);
      WakeupsStep(states[m], acts[m]);
    }
    KeptAlong(states, 0, i, s => WakeupsOk(s));
    RunKeepsBasic(capacity, states, acts, i);
    RunKeepsCapacity(capacity, states, acts, i);
  }

  lemma CapacityKept(s: State, a: Action)
    requires Basic(s) && Can(s, a)
    ensures Do(s, a).capacity == s.capacity
    ensures Do(s, a).room == if a.Grow? then a.room else s.room
  {
    if !IsCallAction(a) {
      HandleStepKeepsCalls(s, a);
    }
  }

  /** Those who have been woken and will look again. */
  ghost function WokenCalls(s: State, space: bool): set<CallId> {
    set c | c in s.calls && s.calls[c].pc.Woken? && s.calls[c].op.Send? == space
  }

  /** With the mutex free, being under way means having been woken. */
  lemma PendingIsWoken(s: State, space: bool, left: int)
    requires Basic(s) && Attended(s, space, left)
    requires s.owner == None && Sleepers(s, space) != {}
    ensures Available(s, space) <= |WokenCalls(s, space)| + left
  {
    forall c | c in Pending(s, space) ensures c in WokenCalls(s, space) {
      assert Holds(s.calls[c].pc) ==> s.owner == Some(c);
    }
    SubsetSize(Pending(s, space), WokenCalls(s, space));
  }

  /**
     With the mutex free and nobody gone without taking what was there: while a receiver sleeps,
     at least as many calls have been woken and will look again as there are queued items.
   */
  lemma NoLostItem(capacity: nat, states: seq<State>, acts: seq<Action>, i: nat)
    requires IsRun(capacity, states, acts) && i < |states|
    requires states[i].strayItems == 0 && states[i].owner == None
    requires Sleepers(states[i], false) != {}
    ensures |states[i].queue| <= |WokenCalls(states[i], false)|
  {
    RunKeepsWakeups(capacity, states, acts, i);
    PendingIsWoken(states[i], false, 0);
  }

  /** The same for free room and sleeping senders. */
  lemma NoLostRoom(capacity: nat, states: seq<State>, acts: seq<Action>, i: nat)
    requires IsRun(capacity, states, acts) && i < |states|
    requires states[i].strayRoom == 0 && states[i].owner == None
    requires states[i].room == capacity
    requires Sleepers(states[i], true) != {}
    ensures capacity - |states[i].queue| <= |WokenCalls(states[i], true)|
  {
    RunKeepsWakeups(capacity, states, acts, i);
    PendingIsWoken(states[i], true, 0);
  }

  // ----- When a call leaves something behind --------------------------------------------------

  /** `wait_for_message` finds an item, or `try_receive_until` finds no senders or `dropping` with items queued. */
  predicate LeavesItem(s: State, a: Action)
    requires Can(s, a)
  {
    a.Read? && s.queue != []
    && var call := s.calls[a.c];
       || (call.op.WaitForMessage? && call.pc.CheckQueue?)
       || (call.op == Receive(Until) && call.pc.RecheckPeers? && s.senders == 0)
       || (call.op == Receive(Until) && call.pc.RecheckClosing? && s.dropping)
  }

  /** A send finds no receivers or `dropping` although there is room. */
  predicate LeavesRoom(s: State, a: Action)
    requires Can(s, a)
  {
    a.Read? && |s.queue| < s.room
    && var call := s.calls[a.c];
       && call.op.Send?
       && ((call.pc.RecheckPeers? && s.receivers == 0) || (call.pc.RecheckClosing? && s.dropping))
  }

  /** Exactly these steps leave an item behind. */
  lemma ItemLeftBehindIff(s: State, a: Action)
    requires Basic(s) && Can(s, a)
    ensures Do(s, a).strayItems == s.strayItems + if LeavesItem(s, a) then 1 else 0
  {
    if !IsCallAction(a) {
      HandleStepKeepsCalls(s, a);
    } else if a.Read? {
      var op := s.calls[a.c].op;
      assert LocalOk(s, op, s.calls[a.c].pc);
      assert op.Receive? ==> op.mode == Forever || op.mode == Until || op.mode == Once;
    }
  }

  /** Exactly these steps leave room behind. */
  lemma RoomLeftBehindIff(s: State, a: Action)
    requires Basic(s) && Can(s, a)
    ensures Do(s, a).strayRoom == s.strayRoom + if LeavesRoom(s, a) then 1 else 0
  {
    if !IsCallAction(a) {
      HandleStepKeepsCalls(s, a);
    } else if a.Read? {
      assert LocalOk(s, s.calls[a.c].op, s.calls[a.c].pc);
    }
  }

  /** Nothing is being destroyed, and the running calls of this side have peers and do not merely wait. */
  ghost predicate Attentive(s: State, space: bool) {
    && !s.dropping
    && (forall c :: c in s.calls && !s.calls[c].pc.Done? && s.calls[c].op.Send? == space ==>
          Peers(s, s.calls[c].op.Send?) > 0 && !s.calls[c].op.WaitForMessage?)
  }

  lemma AttentiveStep(s: State, a: Action, space: bool)
    requires Basic(s) && Can(s, a) && Attentive(s, space)
    ensures Stray(Do(s, a), space) == Stray(s, space)
  {
    if space {
      RoomLeftBehindIff(s, a);
    } else {
      ItemLeftBehindIff(s, a);
    }
  }

  /** No send has stopped waiting for lack of receivers. */
  ghost predicate NoPeerlessSend(s: State) {
    forall c :: c in s.calls && s.calls[c].op.Send? ==> PassedBecause(s.calls[c].pc) != Some(PeersGone)
  }

  lemma NoPeerlessStep(s: State, a: Action)
    requires Basic(s) && Can(s, a) && NoPeerlessSend(s) && Attentive(s, true)
    ensures NoPeerlessSend(Do(s, a))
  {
    var s' := Do(s, a);
    if IsCallAction(a) {
      CallStepOk(s, a);
      PassedStep(s, a);
    } else {
      HandleStepKeepsCalls(s, a);
    }
    forall c | c in s'.calls && s'.calls[c].op.Send? ensures PassedBecause(s'.calls[c].pc) != Some(PeersGone) {
      if !(IsCallAction(a) && c == a.c) {
        assert Undisturbed(s.calls[c], s'.calls[c]);
      }
    }
  }

  lemma NoGrowthWithPeers(s: State, a: Action)
    requires Basic(s) && Can(s, a) && NoPeerlessSend(s)
    ensures Do(s, a).room == s.room
  {
    CapacityKept(s, a);
    assert !a.Grow?;
  }

  ghost predicate AllTaken(s: State, space: bool) {
    Stray(s, space) == 0 && (space ==> s.room == s.capacity && NoPeerlessSend(s))
  }

  lemma AllTakenStep(s: State, a: Action, space: bool)
    requires Basic(s) && Can(s, a) && Attentive(s, space) && AllTaken(s, space)
    ensures AllTaken(Do(s, a), space)
  {
    AttentiveStep(s, a, space);
    if space {
      CapacityKept(s, a);
      NoPeerlessStep(s, a);
      NoGrowthWithPeers(s, a);
    }
  }

  lemma NothingLeftBehind(capacity: nat, states: seq<State>, acts: seq<Action>, i: nat, space: bool)
    requires IsRun(capacity, states, acts) && i < |states|
    requires forall j :: 0 <= j < i ==> Attentive(states[j], space)
    ensures Stray(states[i], space) == 0
    ensures space ==> states[i].room == capacity && NoPeerlessSend(states[i])
  {
    forall m | 0 <= m < i && AllTaken(states[m], space) ensures AllTaken(states[m + 1], space) {
      RunKeepsBasic(capacity, states, acts, m);
      assert Step(states[m], acts[m], states[m + 1]);
      AllTakenStep(states[m], acts[m], space);
    }
    KeptAlong(states, 0, i, s => AllTaken(s, space));
    RunKeepsCapacity(capacity, states, acts, i);
  }

  /**
     In an attentive run, with the mutex free: there is never something to be had while all who
     want it are asleep. Somebody has been woken and will look again.
   */
  lemma NeverAvailableWithAllAsleep(capacity: nat, states: seq<State>, acts: seq<Action>, i: nat, space: bool)
    requires IsRun(capacity, states, acts) && i < |states|
    requires forall j :: 0 <= j < i ==> Attentive(states[j], space)
    requires states[i].owner == None && Available(states[i], space) > 0
    requires Sleepers(states[i], space) != {}
    ensures exists c :: c in states[i].calls && states[i].calls[c].pc.Woken? && states[i].calls[c].op.Send? == space
  {
    NothingLeftBehind(capacity, states, acts, i, space);
    var s := states[i];
    if space {
      NoLostRoom(capacity, states, acts, i);
      var c :| c in WokenCalls(s, true);
    } else {
      NoLostItem(capacity, states, acts, i);
      var c :| c in WokenCalls(s, false);
    }
  }
}
