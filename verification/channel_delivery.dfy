/**
 How much can be lost on sleepers, although peers come and go. As long as nothing is being destroyed,
 whoever sleeps while there is something to be had can count on calls already woken for it, or else
 on a closing broadcast that the last of its peers still owes. Excepted are one item for each waiter
 that has found one, and the room that growth has added to the queue.
 */
module ChannelDelivery {
  import opened Wrappers
  import opened FiniteSets
  import opened Channel
  import opened ChannelSafety
  import opened ChannelLifetimes
  import opened ChannelWakeups

  /** A dropped peer has taken the count to zero and is about to broadcast to this side. */
  ghost predicate ClosingAhead(s: State, space: bool) {
    exists h :: h in s.handles && IsClosing(s.handles[h], space)
  }

  predicate IsClosing(h: Handle, space: bool) {
    h.phase == Waking && h.kind == PeerKind(space)
  }

  predicate IsFinder(call: Call) {
    call.op.WaitForMessage? && (call.pc == Unlock(MessageThere) || call.pc == Done(MessageThere))
  }

  /** The calls of `wait_for_message` that have found an item. */
  ghost function Finders(s: State): set<CallId> {
    set c | c in s.calls && IsFinder(s.calls[c])
  }

  /** What may be had without anybody being woken for it: one item for each finder, or the room that growth added. */
  ghost function Excused(s: State, space: bool): nat {
    if !space then |Finders(s)| else if s.room > s.capacity then s.room - s.capacity - 1 else 0
  }

  /** What is to be had and not excused. */
  ghost function Owed(s: State, space: bool): int {
    Available(s, space) - Excused(s, space)
  }

  /** With peers gone, a sleeper to whom something is owed has the closing broadcast ahead. */
  ghost predicate Unforsaken(s: State, space: bool) {
    Sleepers(s, space) != {} && Owed(s, space) > 0 && Peers(s, space) == 0 ==> ClosingAhead(s, space)
  }

  ghost predicate Served(s: State, space: bool) {
    Attended(s, space, Excused(s, space)) || ClosingAhead(s, space)
  }

  // ----- What is excused ----------------------------------------------------------------------

  lemma FinderStays(s: State, a: Action, c: CallId)
    requires Basic(s) && Can(s, a) && c in Finders(s)
    ensures c in Finders(Do(s, a))
  {
    if IsCallAction(a) && a.c == c {
      assert a == Release(c);
    } else {
      OthersUndisturbed(s, a);
      assert Undisturbed(s.calls[c], Do(s, a).calls[c]);
    }
  }

  lemma ExcusedGrows(s: State, a: Action, space: bool)
    requires Basic(s) && Can(s, a)
    ensures Excused(s, space) <= Excused(Do(s, a), space)
  {
    if space {
      CapacityKept(s, a);
      RoomGrows(s, a);
    } else {
      forall c | c in Finders(s) ensures c in Finders(Do(s, a)) {
        FinderStays(s, a, c);
      }
      SubsetSize(Finders(s), Finders(Do(s, a)));
    }
  }

  lemma RoomGrows(s: State, a: Action)
    requires Basic(s) && Can(s, a)
    ensures Do(s, a).room >= s.room
  {
    CapacityKept(s, a);
  }

  /** A waiter that finds an item is one more finder. */
  lemma FinderAppears(s: State, c: CallId)
    requires Basic(s) && Can(s, Read(c)) && !s.dropping
    requires s.calls[c].op.WaitForMessage? && s.calls[c].pc.CheckQueue? && s.queue != []
    ensures Excused(Do(s, Read(c)), false) > Excused(s, false)
  {
    var s' := Do(s, Read(c));
    assert s'.calls[c] == s.calls[c].(pc := Unlock(MessageThere));
    forall d | d in Finders(s) ensures d in Finders(s') {
      FinderStays(s, Read(c), d);
    }
    assert c in Finders(s') && c !in Finders(s);
    SubsetSize(Finders(s) + {c}, Finders(s'));
  }

  /** After growth nothing is owed. */
  lemma NothingOwedAfterGrowth(s: State, a: Action)
    requires Basic(s) && Can(s, a) && a.Grow?
    ensures Owed(Do(s, a), true) <= 0
  {
    CapacityKept(s, a);
  }

  // ----- Steps of handles ---------------------------------------------------------------------

  /** The broadcast of a closing peer empties the side that it is meant for. */
  lemma ClosingBroadcastEmpties(s: State, h: HandleId, space: bool)
    requires h in s.handles && IsClosing(s.handles[h], space)
    ensures Sleepers(DoWindDown(s, Broadcast(h)), space) == {}
  {
  }

  /** A closing peer stays one until it broadcasts. */
  lemma ClosingStays(s: State, a: Action, space: bool)
    requires Can(s, a) && ClosingAhead(s, space)
    ensures ClosingAhead(Do(s, a), space) || Sleepers(Do(s, a), space) == {}
  {
    var h :| h in s.handles && IsClosing(s.handles[h], space);
    if a == Broadcast(h) {
      ClosingBroadcastEmpties(s, h, space);
    } else {
      WaitsForItsBroadcast(s, a, h);
      assert IsClosing(Do(s, a).handles[h], space);
    }
  }

  lemma WaitsForItsBroadcast(s: State, a: Action, h: HandleId)
    requires Can(s, a) && a != Broadcast(h) && h in s.handles && s.handles[h].phase == Waking
    ensures h in Do(s, a).handles && Do(s, a).handles[h] == s.handles[h]
  {
    if IsCallAction(a) {
      CallStepKeepsHandles(s, a);
    } else {
      OneHandleMoves(s, a);
      OnlyBroadcastFollowsWaking(s, a);
    }
  }

  lemma OnlyBroadcastFollowsWaking(s: State, a: Action)
    requires !IsCallAction(a) && CanHandle(s, a)
    ensures a.h in s.handles && s.handles[a.h].phase == Waking ==> a.Broadcast?
  {
  }

  /** Only the exchange that takes the count to zero, or the destruction, leaves a side without peers. */
  lemma PeersVanish(s: State, a: Action, space: bool)
    requires Lifetimes(s) && Can(s, a) && !IsCallAction(a) && !Do(s, a).dropping
    requires Peers(s, space) > 0 && Peers(Do(s, a), space) == 0
    ensures ClosingAhead(Do(s, a), space)
  {
    if a.Destroy? {
      DestructionProgress(s, a.h);
    } else if a.SwapOk? {
      OneHandleMoves(s, a);
      ExchangeToZero(s, a.h, space);
      assert IsClosing(Do(s, a).handles[a.h], space);
    } else if a.Broadcast? {
      BroadcastMoves(s, a.h);
    } else if a.DropRef? {
      ReleaseMoves(s, a.h);
    } else {
      CountsOnlyFall(s, a, space);
    }
  }

  lemma ExchangeToZero(s: State, h: HandleId, space: bool)
    requires CanHandle(s, SwapOk(h))
    requires Peers(s, space) > 0 && Peers(DoWindDown(s, SwapOk(h)), space) == 0
    requires PhaseOk(s.handles[h])
    ensures h in DoWindDown(s, SwapOk(h)).handles && IsClosing(DoWindDown(s, SwapOk(h)).handles[h], space)
  {
  }

  lemma CountsOnlyFall(s: State, a: Action, space: bool)
    requires Can(s, a) && (IsMaking(a) || a.LoadCount? || a.SwapFails?)
    ensures Peers(Do(s, a), space) >= Peers(s, space)
  {
  }

  lemma SleepersOnlyLeave(s: State, a: Action, space: bool)
    requires Can(s, a) && !IsCallAction(a)
    ensures Sleepers(Do(s, a), space) <= Sleepers(s, space)
    ensures Available(Do(s, a), space) == Available(s, space) && Do(s, a).capacity == s.capacity
  {
    HandleStepKeepsCalls(s, a);
    forall c | c in Sleepers(Do(s, a), space) ensures c in Sleepers(s, space) {
      assert Undisturbed(s.calls[c], Do(s, a).calls[c]);
    }
  }

  lemma HandleStepForsakesNobody(s: State, a: Action, space: bool)
    requires Basic(s) && Lifetimes(s) && Can(s, a) && !IsCallAction(a) && !Do(s, a).dropping
    requires Unforsaken(s, space)
    ensures Unforsaken(Do(s, a), space)
  {
    var s' := Do(s, a);
    SleepersOnlyLeave(s, a, space);
    ExcusedGrows(s, a, space);
    if Sleepers(s', space) != {} && Owed(s', space) > 0 && Peers(s', space) == 0 {
      if Peers(s, space) > 0 {
        PeersVanish(s, a, space);
      } else {
        ClosingStays(s, a, space);
      }
    }
  }

  // ----- Steps of calls -----------------------------------------------------------------------

  /** A running call keeps the count of its own kind above zero. */
  lemma RunningMeansCounted(s: State, c: CallId)
    requires Lifetimes(s) && !s.dropping && c in s.calls && !s.calls[c].pc.Done?
    ensures Count(s, KindFor(s.calls[c].op)) > 0
  {
    assert BorrowOk(s, s.calls[c]);
    RegisteredMeansPositive(s, s.calls[c].handle, KindFor(s.calls[c].op));
  }

  /** What there is to be had grows only through a peer. */
  lemma OnlyPeersProvide(s: State, a: Action, space: bool)
    requires Basic(s) && Lifetimes(s) && Can(s, a) && IsCallAction(a)
    requires !s.dropping && Peers(s, space) == 0 && !(a.Grow? && space)
    ensures Available(Do(s, a), space) <= Available(s, space)
  {
    if a.PushOrPop? || a.Grow? {
      RunningMeansCounted(s, a.c);
      TransferProvides(s, a, space);
    } else {
      OthersTransferNothing(s, a);
    }
  }

  lemma TransferProvides(s: State, a: Action, space: bool)
    requires Can(s, a) && (a.PushOrPop? || (a.Grow? && !space))
    requires s.calls[a.c].op.Send? == space
    ensures Available(Do(s, a), space) <= Available(s, space)
  {
  }

  lemma OthersTransferNothing(s: State, a: Action)
    requires Can(s, a) && IsCallAction(a) && !a.PushOrPop? && !a.Grow?
    ensures Do(s, a).queue == s.queue && Do(s, a).room == s.room
  {
  }

  /** Nobody falls asleep beside something available. */
  lemma SleepersFindNothing(s: State, a: Action, space: bool)
    requires Basic(s) && Can(s, a) && IsCallAction(a)
    requires !(Sleepers(Do(s, a), space) <= Sleepers(s, space))
    ensures a.Sleep? && Available(s, space) <= 0
  {
    CallStepOk(s, a);
    CallStepKeepsHandles(s, a);
    forall c | c in Sleepers(Do(s, a), space) && c != a.c ensures c in Sleepers(s, space) {
      assert Undisturbed(s.calls[c], Do(s, a).calls[c]);
    }
    assert a.c in Sleepers(Do(s, a), space);
    OnlySleepSleeps(s, a);
    assert LocalOk(s, s.calls[a.c].op, s.calls[a.c].pc);
  }

  lemma CallStepForsakesNobody(s: State, a: Action, space: bool)
    requires Basic(s) && Lifetimes(s) && Can(s, a) && IsCallAction(a)
    requires !s.dropping && Unforsaken(s, space)
    ensures Unforsaken(Do(s, a), space)
  {
    var s' := Do(s, a);
    CallStepKeepsHandles(s, a);
    if a.Grow? && space {
      NothingOwedAfterGrowth(s, a);
    } else if Sleepers(s', space) != {} && Owed(s', space) > 0 && Peers(s', space) == 0 {
      ExcusedGrows(s, a, space);
      OnlyPeersProvide(s, a, space);
      if !(Sleepers(s', space) <= Sleepers(s, space)) {
        SleepersFindNothing(s, a, space);
      }
      ClosingStays(s, a, space);
    }
  }

  lemma UnforsakenStep(s: State, a: Action, space: bool)
    requires Basic(s) && Lifetimes(s) && Can(s, a) && !Do(s, a).dropping
    requires Unforsaken(s, space)
    ensures Unforsaken(Do(s, a), space)
  {
    if IsCallAction(a) {
      CallStepKeepsHandles(s, a);
      CallStepForsakesNobody(s, a, space);
    } else {
      HandleStepForsakesNobody(s, a, space);
    }
  }

  // ----- Who leaves without taking ------------------------------------------------------------

  /** Without destruction, a call leaves something behind only as a finder, or for lack of peers. */
  lemma WhoLeaves(s: State, a: Action, space: bool)
    requires Basic(s) && Can(s, a) && !s.dropping
    requires Stray(Do(s, a), space) != Stray(s, space)
    ensures Stray(Do(s, a), space) == Stray(s, space) + 1 && a.Read?
    ensures Peers(s, space) == 0 || Excused(Do(s, a), space) > Excused(s, space)
  {
    if space {
      RoomLeftBehindIff(s, a);
    } else {
      ItemLeftBehindIff(s, a);
      if s.calls[a.c].op.WaitForMessage? {
        FinderAppears(s, a.c);
      }
    }
  }

  /** Who leaves for lack of peers leaves no sleeper beside something owed, unless a broadcast is to come. */
  lemma LeavesNobodyUnserved(s: State, c: CallId, space: bool)
    requires Basic(s) && Can(s, Read(c)) && Peers(s, space) == 0
    requires Unforsaken(s, space) && !ClosingAhead(s, space)
    ensures Attended(Do(s, Read(c)), space, Excused(s, space))
  {
    if !(Sleepers(Do(s, Read(c)), space) <= Sleepers(s, space)) {
      SleepersFindNothing(s, Read(c), space);
    }
    OthersTransferNothing(s, Read(c));
  }

  lemma ServedStep(s: State, a: Action, space: bool)
    requires Basic(s) && Lifetimes(s) && Can(s, a) && !s.dropping && !Do(s, a).dropping
    requires Unforsaken(s, space) && Served(s, space)
    ensures Served(Do(s, a), space)
  {
    ExcusedGrows(s, a, space);
    if ClosingAhead(s, space) {
      ClosingStays(s, a, space);
    } else if a.Grow? && space {
      NothingOwedAfterGrowth(s, a);
    } else {
      AttendedStep(s, a, space, Excused(s, space));
      if Stray(Do(s, a), space) != Stray(s, space) {
        WhoLeaves(s, a, space);
        if Peers(s, space) == 0 {
          LeavesNobodyUnserved(s, a.c, space);
        }
      }
    }
  }

  // ----- Whole runs ---------------------------------------------------------------------------

  ghost predicate ServiceOk(s: State, space: bool) {
    !s.dropping ==> Unforsaken(s, space) && Served(s, space)
  }

  lemma ServiceStep(s: State, a: Action, space: bool)
    requires Basic(s) && Lifetimes(s) && ServiceOk(s, space) && Can(s, a)
    ensures ServiceOk(Do(s, a), space)
  {
    if !Do(s, a).dropping {
      if s.dropping {
        DroppingStep(s, a);
      }
      UnforsakenStep(s, a, space);
      ServedStep(s, a, space);
    }
  }

  lemma RunKeepsService(capacity: nat, states: seq<State>, acts: seq<Action>, i: nat, space: bool)
    requires IsRun(capacity, states, acts) && i < |states|
    ensures ServiceOk(states[i], space)
  {
    forall m | 0 <= m < i && ServiceOk(states[m], space) ensures ServiceOk(states[m + 1], space) {
      RunKeepsLifetimes(capacity, states, acts, m);
      assert Step(states[m], acts[m], states[m + 1]);
      ServiceStep(states[m], acts[m], space);
    }
    KeptAlong(states, 0, i, s => ServiceOk(s, space));
  }

  /**
     While nothing is destroyed, with the mutex free and someone asleep, what is owed is at most the
     number of calls woken for it, unless a closing broadcast is to come.
   */
  lemma WhatIsOwedIsServed(capacity: nat, states: seq<State>, acts: seq<Action>, i: nat, space: bool)
    requires IsRun(capacity, states, acts) && i < |states|
    requires !states[i].dropping && states[i].owner == None && Sleepers(states[i], space) != {}
    ensures Owed(states[i], space) <= |WokenCalls(states[i], space)| || ClosingAhead(states[i], space)
  {
    RunKeepsService(capacity, states, acts, i, space);
    RunKeepsBasic(capacity, states, acts, i);
    if !ClosingAhead(states[i], space) {
      PendingIsWoken(states[i], space, Excused(states[i], space));
    }
  }

  /** Beside a sleeping receiver there is at most one item for each woken call and each waiter that has found one. */
  lemma ItemsLostOnlyToFinders(capacity: nat, states: seq<State>, acts: seq<Action>, i: nat)
    requires IsRun(capacity, states, acts) && i < |states|
    requires !states[i].dropping && states[i].owner == None && Sleepers(states[i], false) != {}
    ensures |states[i].queue| <= |WokenCalls(states[i], false)| + |Finders(states[i])|
            || ClosingAhead(states[i], false)
  {
    WhatIsOwedIsServed(capacity, states, acts, i, false);
  }

  /** Beside a sleeping sender the room within the creation capacity is at most one for each woken call. */
  lemma RoomLostOnlyBeyondCapacity(capacity: nat, states: seq<State>, acts: seq<Action>, i: nat)
    requires IsRun(capacity, states, acts) && i < |states|
    requires !states[i].dropping && states[i].owner == None && Sleepers(states[i], true) != {}
    ensures capacity - |states[i].queue| <= |WokenCalls(states[i], true)| || ClosingAhead(states[i], true)
    ensures states[i].room > capacity ==>
              capacity + 1 - |states[i].queue| <= |WokenCalls(states[i], true)| || ClosingAhead(states[i], true)
  {
    WhatIsOwedIsServed(capacity, states, acts, i, true);
    RunKeepsBasic(capacity, states, acts, i);
    RunKeepsCapacity(capacity, states, acts, i);
  }

  ghost predicate NoWaiter(s: State) {
    forall c :: c in s.calls ==> !s.calls[c].op.WaitForMessage?
  }

  /**
     In particular: in runs without `wait_for_message` for items, and without growth for room, all
     that is to be had has a call woken for it, unless a closing broadcast is to come.
   */
  lemma NoLostWakeup(capacity: nat, states: seq<State>, acts: seq<Action>, i: nat, space: bool)
    requires IsRun(capacity, states, acts) && i < |states|
    requires !states[i].dropping && if space then states[i].room == capacity else NoWaiter(states[i])
    requires states[i].owner == None && Sleepers(states[i], space) != {}
    ensures Available(states[i], space) <= |WokenCalls(states[i], space)| || ClosingAhead(states[i], space)
  {
    if space {
      RoomLostOnlyBeyondCapacity(capacity, states, acts, i);
    } else {
      ItemsLostOnlyToFinders(capacity, states, acts, i);
      assert Finders(states[i]) == {};
    }
  }
}
