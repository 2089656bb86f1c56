/**
 What the broadcasts of a closing achieve. The last dropped sender (receiver) broadcasts without the
 mutex, and so does the destruction: each reaches every sleeper except a call that has made its last
 check and not yet fallen asleep. Such a call, and no other, can sleep on for good.
 */
module ChannelClosure {
  import opened Wrappers
  import opened Channel
  import opened ChannelSafety
  import opened ChannelLifetimes
  import opened ChannelDelivery
  import opened ChannelRuns
  import opened ChannelLimits

  /** Call `c` is of this side and at one of these points. */
  predicate IsAt(s: State, c: CallId, sending: bool, points: set<Pc>) {
    c in s.calls && s.calls[c].op.Send? == sending && s.calls[c].pc in points
  }

  /** It is a receive or a send, which look at the count of their peers. */
  predicate IsPeerAt(s: State, c: CallId, sending: bool, points: set<Pc>) {
    IsAt(s, c, sending, points) && !s.calls[c].op.WaitForMessage?
  }

  /** Has read the count, will not time out, and is not asleep yet. */
  const LATE: set<Pc> := {CheckClosing(false), GoToSleep}

  /** Late or asleep. */
  const COMMITTED: set<Pc> := {CheckClosing(false), GoToSleep, Sleeping}

  /** Past the last check. */
  const BEYOND: set<Pc> := {GoToSleep, Sleeping}

  // ----- Only late calls sleep on -------------------------------------------------------------

  lemma CommitsOnlyByReading(s: State, a: Action)
    requires Basic(s) && IsCallAction(a) && !a.Start? && CanCall(s, a) && a.c in DoCall(s, a).calls
    requires !s.calls[a.c].op.WaitForMessage?
    ensures DoCall(s, a).calls[a.c].pc in COMMITTED ==>
              s.calls[a.c].pc in COMMITTED || Peers(s, s.calls[a.c].op.Send?) > 0
  {
    if a.Read? {
      ReadDecides(s, s.calls[a.c].op, s.calls[a.c].pc);
      assert DoRead(s, a.c).calls[a.c].pc == AfterRead(s, s.calls[a.c].op, s.calls[a.c].pc);
    } else {
      OnlyReadingDecides(s, a);
    }
  }

  /** With no peers left, a call that has not committed itself to sleeping never does. */
  lemma NobodyCommits(s: State, a: Action, sending: bool, c: CallId)
    requires Basic(s) && Can(s, a) && Peers(s, sending) == 0
    requires IsPeerAt(Do(s, a), c, sending, COMMITTED)
    ensures IsPeerAt(s, c, sending, COMMITTED)
  {
    OthersUndisturbed(s, a);
    if IsCallAction(a) && a.c == c {
      assert !a.Start?;
      CallStepKeepsHandles(s, a);
      CommitsOnlyByReading(s, a);
    } else {
      assert Undisturbed(s.calls[c], Do(s, a).calls[c]);
    }
  }

  lemma CommittedFromTheStart(states: seq<State>, acts: seq<Action>, sending: bool, c: CallId)
    requires IsPath(states, acts) && Basic(states[0])
    requires forall m :: 0 <= m < |states| ==> LeftAlone(states[m], sending)
    requires IsPeerAt(states[|acts|], c, sending, COMMITTED)
    ensures IsPeerAt(states[0], c, sending, COMMITTED)
  {
    if !IsPeerAt(states[0], c, sending, COMMITTED) {
      forall m | 0 <= m < |acts| && !IsPeerAt(states[m], c, sending, COMMITTED)
        ensures !IsPeerAt(states[m + 1], c, sending, COMMITTED)
      {
        PathKeepsBasic(states, acts, m);
        assert Step(states[m], acts[m], states[m + 1]) && LeftAlone(states[m], sending);
        if IsPeerAt(states[m + 1], c, sending, COMMITTED) {
          NobodyCommits(states[m], acts[m], sending, c);
        }
      }
      KeptAlong(states, 0, |acts|, s => !IsPeerAt(s, c, sending, COMMITTED));
    }
  }

  /** The broadcast wakes whoever is asleep, and changes nothing else for the calls. */
  lemma AfterBroadcast(s: State, h: HandleId, c: CallId, sending: bool)
    requires h in s.handles && s.handles[h].phase == Waking && sending == (s.handles[h].kind == OfReceiver)
    ensures var s' := DoWindDown(s, Broadcast(h));
            && (IsPeerAt(s', c, sending, COMMITTED) <==> IsPeerAt(s, c, sending, LATE))
            && (IsPeerAt(s', c, sending, LATE) <==> IsPeerAt(s, c, sending, LATE))
            && s'.freed == s.freed
  {
    assert DoWindDown(s, Broadcast(h)).calls == WakeCalls(s.calls, Sleepers(s, sending));
  }

  // ----- Late calls can sleep on --------------------------------------------------------------

  /** Asleep, without peers, and with no closing broadcast to come. */
  ghost predicate IsStranded(s: State, c: CallId, sending: bool) {
    LeftAlone(s, sending) && IsPeerAt(s, c, sending, {Sleeping}) && !ClosingAhead(s, sending)
  }

  /** From `s` on, with the peers staying gone, call `c` can come to be asleep. */
  ghost predicate CanFallAsleep(s: State, c: CallId, sending: bool) {
    exists t :: Leads(s, t, Some(sending)) && IsPeerAt(t, c, sending, {Sleeping})
  }

  ghost predicate CanBeStranded(s: State, c: CallId, sending: bool) {
    exists t :: Leads(s, t, Some(sending)) && IsStranded(t, c, sending)
  }

  ghost function Closing(s: State, sending: bool): set<HandleId> {
    set h | h in s.handles && IsClosing(s.handles[h], sending)
  }

  lemma BroadcastLeavesAlone(s: State, h: HandleId, sending: bool)
    requires Can(s, Broadcast(h)) && LeftAlone(s, sending) && IsClosing(s.handles[h], sending)
    ensures LeftAlone(Do(s, Broadcast(h)), sending) && !Do(s, Broadcast(h)).freed
    ensures Closing(Do(s, Broadcast(h)), sending) == Closing(s, sending) - {h}
  {
    HandleStepKeepsCalls(s, Broadcast(h));
    BroadcastMoves(s, h);
    OneHandleMoves(s, Broadcast(h));
  }

  lemma OneBroadcast(start: State, s: State, h: HandleId, c: CallId, sending: bool) returns (s': State)
    requires Leads(start, s, Some(sending)) && LeftAlone(s, sending)
    requires Basic(s) && Lifetimes(s) && !s.freed && IsPeerAt(s, c, sending, LATE)
    requires h in s.handles && IsClosing(s.handles[h], sending)
    ensures Leads(start, s', Some(sending)) && LeftAlone(s', sending)
    ensures Basic(s') && Lifetimes(s') && !s'.freed && IsPeerAt(s', c, sending, LATE)
    ensures Closing(s', sending) == Closing(s, sending) - {h}
  {
    s' := Do(s, Broadcast(h));
    BroadcastLeavesAlone(s, h, sending);
    AfterBroadcast(s, h, c, sending);
    BasicStep(s, Broadcast(h));
    LifetimesStep(s, Broadcast(h));
    GoOn(start, s, Broadcast(h), s', Some(sending));
  }

  /** While a late call holds the mutex, all closing peers can broadcast. */
  lemma {:induction false} BroadcastsAreOver(start: State, s: State, c: CallId, sending: bool) returns (t: State)
    requires Leads(start, s, Some(sending)) && LeftAlone(s, sending)
    requires Basic(s) && Lifetimes(s) && !s.freed && IsPeerAt(s, c, sending, LATE)
    ensures Leads(start, t, Some(sending)) && LeftAlone(t, sending)
    ensures !t.freed && IsPeerAt(t, c, sending, LATE) && !ClosingAhead(t, sending)
    decreases |Closing(s, sending)|
  {
    if h :| h in s.handles && IsClosing(s.handles[h], sending) {
      assert h in Closing(s, sending);
      var s' := OneBroadcast(start, s, h, c, sending);
      t := BroadcastsAreOver(start, s', c, sending);
    } else {
      t := s;
    }
  }

  lemma LateCallFallsAsleep(start: State, s: State, c: CallId, sending: bool) returns (t: State)
    requires Leads(start, s, Some(sending)) && LeftAlone(s, sending)
    requires !s.freed && IsPeerAt(s, c, sending, LATE) && !ClosingAhead(s, sending)
    ensures Leads(start, t, Some(sending)) && IsStranded(t, c, sending)
  {
    var u := MoveTo(s, c, GoToSleep);
    if s.calls[c].pc == CheckClosing(false) {
      ReadResult(s, c, GoToSleep);
      GoOn(start, s, Read(c), u, Some(sending));
    } else {
      assert u.calls == s.calls;
    }
    t := MoveTo(u, c, Sleeping).(owner := None);
    GoOn(start, u, Sleep(c), t, Some(sending));
    assert t.handles == s.handles;
  }

  /**
     A dropped peer has broadcast, the count is zero and nothing is being destroyed. Exactly the
     receives (sends) that had then read the count, within their deadline, and not yet fallen asleep
     can be asleep at any later time before a peer comes; and each of them can be left asleep with no
     broadcast to come.
   */
  lemma BroadcastMissesIff(capacity: nat, states: seq<State>, acts: seq<Action>, k: nat, c: CallId)
    requires IsRun(capacity, states, acts) && k < |acts|
    requires acts[k].Broadcast? && acts[k].h in states[k].handles
    requires LeftAlone(states[k + 1], states[k].handles[acts[k].h].kind == OfReceiver)
    ensures var sending := states[k].handles[acts[k].h].kind == OfReceiver;
            && (CanFallAsleep(states[k + 1], c, sending) <==> IsPeerAt(states[k], c, sending, LATE))
            && (CanBeStranded(states[k + 1], c, sending) <==> IsPeerAt(states[k], c, sending, LATE))
  {
    RunKeepsLifetimes(capacity, states, acts, k);
    RunKeepsLifetimes(capacity, states, acts, k + 1);
    assert Step(states[k], Broadcast(acts[k].h), states[k + 1]);
    AfterBroadcast(states[k], acts[k].h, c, states[k].handles[acts[k].h].kind == OfReceiver);
    AsleepIffCommitted(states[k + 1], c, states[k].handles[acts[k].h].kind == OfReceiver);
  }

  /** Right after the broadcast, when nobody is asleep. */
  lemma AsleepIffCommitted(s: State, c: CallId, sending: bool)
    requires Basic(s) && Lifetimes(s) && LeftAlone(s, sending) && !s.freed
    requires IsPeerAt(s, c, sending, COMMITTED) ==> IsPeerAt(s, c, sending, LATE)
    ensures CanFallAsleep(s, c, sending) <==> IsPeerAt(s, c, sending, LATE)
    ensures CanBeStranded(s, c, sending) <==> IsPeerAt(s, c, sending, LATE)
  {
    if CanFallAsleep(s, c, sending) {
      SleeperWasCommitted(s, c, sending);
    }
    if IsPeerAt(s, c, sending, LATE) {
      LateCallIsMissed(s, c, sending);
    }
    if t :| Leads(s, t, Some(sending)) && IsStranded(t, c, sending) {
      assert IsPeerAt(t, c, sending, {Sleeping});
    }
  }

  lemma SleeperWasCommitted(s: State, c: CallId, sending: bool)
    requires Basic(s) && CanFallAsleep(s, c, sending)
    ensures IsPeerAt(s, c, sending, COMMITTED)
  {
    var t :| Leads(s, t, Some(sending)) && IsPeerAt(t, c, sending, {Sleeping});
    var states: seq<State>, acts: seq<Action> :| PathTo(s, states, acts, t, Some(sending));
    CommittedFromTheStart(states, acts, sending, c);
  }

  lemma LateCallIsMissed(s: State, c: CallId, sending: bool)
    requires Basic(s) && Lifetimes(s) && LeftAlone(s, sending) && !s.freed && IsPeerAt(s, c, sending, LATE)
    ensures CanBeStranded(s, c, sending) && CanFallAsleep(s, c, sending)
  {
    StayHere(s, Some(sending));
    var t := BroadcastsAreOver(s, s, c, sending);
    var u := LateCallFallsAsleep(s, t, c, sending);
    assert IsStranded(u, c, sending) && IsPeerAt(u, c, sending, {Sleeping});
  }

  // ----- Nothing in the channel rescues a stranded call ---------------------------------------

  /** No peer without a count, so none in the exchange loop. */
  lemma NobodyIsClosing(s: State, a: Action, sending: bool)
    requires Lifetimes(s) && Can(s, a) && !IsCallAction(a) && LeftAlone(s, sending) && !ClosingAhead(s, sending)
    ensures !ClosingAhead(Do(s, a), sending)
  {
    var s', h := Do(s, a), a.h;
    OneHandleMoves(s, a);
    assert h in s.handles ==> PhaseOk(s.handles[h]) && !IsClosing(s.handles[h], sending);
    assert !IsClosing(s'.handles[h], sending) by {
      if IsMaking(a) {
        MakingIsNotClosing(s, a);
      } else if a.Destroy? {
        DestructionPhase(s, h);
      } else if a.Broadcast? {
        BroadcastMoves(s, h);
      } else if a.DropRef? {
        ReleaseMoves(s, h);
      } else if IsCounted(s.handles[h], PeerKind(sending)) {
        RegisteredMeansPositive(s, h, PeerKind(sending));
      }
    }
  }

  lemma MakingIsNotClosing(s: State, a: Action)
    requires IsMaking(a) && CanHandle(s, a)
    ensures DoMake(s, a).handles[a.h].phase != Waking
  {
  }

  lemma HandlesRescueNobody(s: State, a: Action, c: CallId, sending: bool)
    requires Lifetimes(s) && Can(s, a) && !IsCallAction(a) && IsStranded(s, c, sending)
    requires LeftAlone(Do(s, a), sending)
    ensures IsStranded(Do(s, a), c, sending)
  {
    HandleStepKeepsCalls(s, a);
    NobodyIsClosing(s, a, sending);
    if a.Broadcast? {
      assert PhaseOk(s.handles[a.h]) && !IsClosing(s.handles[a.h], sending);
      OtherBroadcast(s, a.h, c, sending);
    } else if a.Destroy? {
      DestructionProgress(s, a.h);
    } else {
      OnlyBroadcastsWake(s, a);
    }
  }

  lemma OnlyBroadcastsWake(s: State, a: Action)
    requires !IsCallAction(a) && !a.Broadcast? && !a.Destroy? && CanHandle(s, a)
    ensures DoHandle(s, a).calls == s.calls
  {
    if IsMaking(a) {
      MakingKeepsCalls(s, a);
    } else if a.DropRef? {
      ReleaseKeepsCalls(s, a.h);
    } else {
      LoopKeepsCalls(s, a);
    }
  }

  lemma OtherBroadcast(s: State, h: HandleId, c: CallId, sending: bool)
    requires CanHandle(s, Broadcast(h)) && s.handles[h].kind != PeerKind(sending) && s.handles[h].kind != Plain
    requires IsPeerAt(s, c, sending, {Sleeping})
    ensures IsPeerAt(DoWindDown(s, Broadcast(h)), c, sending, {Sleeping})
  {
  }

  lemma CallsRescueNobody(s: State, a: Action, c: CallId, sending: bool)
    requires Basic(s) && Lifetimes(s) && Can(s, a) && IsCallAction(a) && IsStranded(s, c, sending)
    requires a != Wake(c) && a != Expire(c)
    ensures IsStranded(Do(s, a), c, sending)
  {
    CallStepKeepsHandles(s, a);
    assert LeftAlone(Do(s, a), sending) && !ClosingAhead(Do(s, a), sending);
    assert a.c != c;
    if a.Signal? {
      RunningMeansCounted(s, a.c);
      assert c !in a.chosen;
    }
  }

  lemma StrandedStays(s: State, a: Action, c: CallId, sending: bool)
    requires Basic(s) && Lifetimes(s) && Can(s, a) && IsStranded(s, c, sending)
    requires a != Wake(c) && a != Expire(c) && LeftAlone(Do(s, a), sending)
    ensures IsStranded(Do(s, a), c, sending)
  {
    if IsCallAction(a) {
      CallsRescueNobody(s, a, c, sending);
    } else {
      HandlesRescueNobody(s, a, c, sending);
    }
  }

  /** Until a peer comes or a destruction begins, only a spurious wakeup or its deadline wakes a stranded call. */
  lemma StrandedForGood(capacity: nat, states: seq<State>, acts: seq<Action>, i: nat, j: nat, c: CallId, sending: bool)
    requires IsRun(capacity, states, acts) && i <= j < |states|
    requires forall m :: i <= m <= j ==> LeftAlone(states[m], sending)
    requires forall m :: i <= m < j ==> acts[m] != Wake(c) && acts[m] != Expire(c)
    ensures IsStranded(states[i], c, sending) ==> IsStranded(states[j], c, sending)
  {
    if IsStranded(states[i], c, sending) {
      forall m | i <= m < j && IsStranded(states[m], c, sending) ensures IsStranded(states[m + 1], c, sending) {
        RunKeepsLifetimes(capacity, states, acts, m);
        assert Step(states[m], acts[m], states[m + 1]);
        StrandedStays(states[m], acts[m], c, sending);
      }
      KeptAlong(states, i, j, s => IsStranded(s, c, sending));
    }
  }

  /** Runs with such late calls exist, on both sides and for every capacity. */
  lemma SomeCallIsStranded(capacity: nat, sending: bool) returns (s: State, c: CallId)
    ensures Reaches(capacity, s) && IsStranded(s, c, sending) && s.owner == None
  {
    var w, op, h, p;
    if sending {
      w := FilledIsReached(capacity, capacity, true);
      c, op, h, p := capacity, Send(Forever, 5), 1, 2;
    } else {
      PairIsReached(capacity, true);
      w := WithPair(capacity, true);
      c, op, h, p := 0, Receive(Forever), 2, 1;
    }
    s := OneIsLeftAsleep(capacity, w, c, op, h, p);
  }

  lemma OneIsLeftAsleep(capacity: nat, w: State, c: CallId, op: Op, h: HandleId, p: HandleId) returns (s: State)
    requires Reaches(capacity, w) && Idle(w, c, op, h) && !Ready(w, op)
    requires !op.WaitForMessage? && op.Send? == (p == 2) && op.mode == Forever
    requires w.handles == PAIR && w.senders == 1 && w.receivers == 1 && w.refs == 3
    requires (h == 1 && p == 2) || (h == 2 && p == 1)
    requires forall d :: d in w.calls ==> w.calls[d].pc.Done?
    ensures Reaches(capacity, s) && IsStranded(s, c, p == 2) && s.owner == None
  {
    ComesToCheckClosing(capacity, w, c, op, h);
    var late := Put(w, c, op, h, CheckClosing(false), Some(c));
    assert Sleepers(late, p == 2) == {};
    PeerIsDropped(capacity, late, p);
    var closed := Dropped(w, p);
    assert Dropped(late, p) == Put(closed, c, op, h, CheckClosing(false), Some(c));
    ChecksClosingAndSleeps(capacity, closed, c, op, h);
    s := Put(closed, c, op, h, Sleeping, None);
  }

  // ----- The broadcasts of the destruction ----------------------------------------------------

  lemma PassesOnlyByReading(s: State, a: Action)
    requires Basic(s) && IsCallAction(a) && !a.Start? && CanCall(s, a) && a.c in DoCall(s, a).calls
    ensures DoCall(s, a).calls[a.c].pc == GoToSleep ==> a.Read? && !s.dropping
  {
    if a.Read? {
      ReadDecides(s, s.calls[a.c].op, s.calls[a.c].pc);
      assert DoRead(s, a.c).calls[a.c].pc == AfterRead(s, s.calls[a.c].op, s.calls[a.c].pc);
    } else {
      OnlyReadingDecides(s, a);
    }
  }

  /** Once `dropping` is set no call passes its last check. */
  lemma NobodyPassesChecks(s: State, a: Action, c: CallId, sending: bool)
    requires Basic(s) && Can(s, a) && s.dropping
    requires IsAt(Do(s, a), c, sending, BEYOND)
    ensures IsAt(s, c, sending, BEYOND)
  {
    OthersUndisturbed(s, a);
    if IsCallAction(a) && a.c == c {
      assert !a.Start?;
      CallStepKeepsHandles(s, a);
      PassesOnlyByReading(s, a);
      OnlySleepSleeps(s, a);
    } else {
      assert Undisturbed(s.calls[c], Do(s, a).calls[c]);
    }
  }

  lemma BeyondChecksFromTheStart(states: seq<State>, acts: seq<Action>, c: CallId, sending: bool)
    requires IsPath(states, acts) && Basic(states[0]) && states[0].dropping
    requires IsAt(states[|acts|], c, sending, BEYOND)
    ensures IsAt(states[0], c, sending, BEYOND)
  {
    if !IsAt(states[0], c, sending, BEYOND) {
      forall m | 0 <= m < |acts| && !IsAt(states[m], c, sending, BEYOND)
        ensures !IsAt(states[m + 1], c, sending, BEYOND)
      {
        PathKeepsBasic(states, acts, m);
        DroppingIsKept(states, acts, 0, m);
        assert Step(states[m], acts[m], states[m + 1]);
        if IsAt(states[m + 1], c, sending, BEYOND) {
          NobodyPassesChecks(states[m], acts[m], c, sending);
        }
      }
      KeptAlong(states, 0, |acts|, s => !IsAt(s, c, sending, BEYOND));
    }
  }

  /** The step of the destruction that wakes receivers, or senders, of other processes. */
  predicate WakesSide(phase: Phase, sending: bool) {
    if sending then phase.WakeSenders? && phase.senders > 0 else phase.WakeReceivers? && phase.receivers > 0
  }

  lemma AfterDestructionWakes(s: State, h: HandleId, c: CallId, sending: bool)
    requires h in s.handles && WakesSide(s.handles[h].phase, sending)
    ensures var s' := DoDestroy(s, h);
            && (IsAt(s', c, sending, BEYOND) <==> IsAt(s, c, sending, {GoToSleep}))
            && (IsAt(s', c, sending, {GoToSleep}) <==> IsAt(s, c, sending, {GoToSleep}))
            && s'.freed == s.freed
            && s'.handles == s.handles[h := s'.handles[h]]
            && s'.handles[h].phase == if sending then LastLock else WakeSenders(s.handles[h].phase.senders)
  {
    var s' := DoDestroy(s, h);
    assert s'.calls == WakeCalls(s.calls, Sleepers(s, sending));
  }

  ghost predicate CanSleepOn(s: State, c: CallId, sending: bool) {
    exists t :: Leads(s, t, None) && IsAt(t, c, sending, {Sleeping})
  }

  /** The queue is freed with the call asleep. */
  ghost predicate CanBeAbandoned(s: State, c: CallId, sending: bool) {
    exists t :: Leads(s, t, None) && IsAt(t, c, sending, {Sleeping}) && t.freed
  }

  lemma LastStepFrees(start: State, s: State, h: HandleId, c: CallId, sending: bool)
    requires Leads(start, s, None) && !s.freed && h in s.handles && s.handles[h].phase == LastLock
    requires IsAt(s, c, sending, {Sleeping})
    ensures CanBeAbandoned(start, c, sending)
  {
    var t := DoDestroy(s, h);
    GoOn(start, s, Destroy(h), t, None);
    assert IsAt(t, c, sending, {Sleeping}) && t.freed;
  }

  lemma DestructionGoesOn(start: State, s: State, h: HandleId, c: CallId)
    requires Leads(start, s, None) && !s.freed && h in s.handles && s.handles[h].phase.WakeSenders?
    requires IsAt(s, c, false, {Sleeping})
    ensures CanBeAbandoned(start, c, false)
  {
    var t := DoDestroy(s, h);
    GoOn(start, s, Destroy(h), t, None);
    assert IsAt(t, c, false, {Sleeping});
    LastStepFrees(start, t, h, c, false);
  }

  /** A call at the point of falling asleep does so, and the destruction goes on to its end. */
  lemma FallingAsleepIsMissed(s: State, h: HandleId, c: CallId, sending: bool)
    requires !s.freed && IsAt(s, c, sending, {GoToSleep})
    requires h in s.handles
    requires if sending then s.handles[h].phase == LastLock else s.handles[h].phase.WakeSenders?
    ensures CanBeAbandoned(s, c, sending)
  {
    StayHere(s, None);
    var t := MoveTo(s, c, Sleeping).(owner := None);
    GoOn(s, s, Sleep(c), t, None);
    if sending {
      LastStepFrees(s, t, h, c, sending);
    } else {
      DestructionGoesOn(s, t, h, c);
    }
  }

  lemma SleeperWasBeyondChecks(s: State, c: CallId, sending: bool)
    requires Basic(s) && s.dropping && CanSleepOn(s, c, sending)
    ensures IsAt(s, c, sending, BEYOND)
  {
    var t :| Leads(s, t, None) && IsAt(t, c, sending, {Sleeping});
    var states: seq<State>, acts: seq<Action> :| PathTo(s, states, acts, t, None);
    BeyondChecksFromTheStart(states, acts, c, sending);
  }

  /**
     The destruction has broadcast to one side. Exactly the calls of that side that had then passed
     their last check and not yet fallen asleep can be asleep at any later time; and each of them can
     still be asleep when the queue is freed.
   */
  lemma DestructionMissesIff(capacity: nat, states: seq<State>, acts: seq<Action>, k: nat, sending: bool, c: CallId)
    requires IsRun(capacity, states, acts) && k < |acts|
    requires acts[k].Destroy? && acts[k].h in states[k].handles
    requires WakesSide(states[k].handles[acts[k].h].phase, sending)
    ensures CanSleepOn(states[k + 1], c, sending) <==> IsAt(states[k], c, sending, {GoToSleep})
    ensures CanBeAbandoned(states[k + 1], c, sending) <==> IsAt(states[k], c, sending, {GoToSleep})
  {
    var s, h := states[k], acts[k].h;
    assert Step(s, acts[k], states[k + 1]);
    RunKeepsLifetimes(capacity, states, acts, k);
    RunKeepsLifetimes(capacity, states, acts, k + 1);
    DestructionProgress(s, h);
    AfterDestructionWakes(s, h, c, sending);
    if CanSleepOn(states[k + 1], c, sending) {
      SleeperWasBeyondChecks(states[k + 1], c, sending);
    }
    if IsAt(s, c, sending, {GoToSleep}) {
      FallingAsleepIsMissed(states[k + 1], h, c, sending);
    }
    assert CanBeAbandoned(states[k + 1], c, sending) ==> CanSleepOn(states[k + 1], c, sending);
  }

  // ----- Such a destruction happens -----------------------------------------------------------

  /** `s` with the channel's own value at `phase`, having given up its reference. */
  function Dying(s: State, phase: Phase, senders: nat, receivers: nat, dropping: bool): State {
    s.(refs := 0, dropping := dropping, senders := senders, receivers := receivers,
       handles := Pair(false)[0 := Handle(Plain, true, 0, phase)])
  }

  lemma DyingMoves(s: State, phase: Phase, senders: nat, receivers: nat, dropping: bool, next: Phase)
    ensures SetPhase(Dying(s, phase, senders, receivers, dropping), 0, next)
            == Dying(s, next, senders, receivers, dropping)
  {
    assert Pair(false)[0 := Handle(Plain, true, 0, phase)][0 := Handle(Plain, true, 0, next)]
        == Pair(false)[0 := Handle(Plain, true, 0, next)];
  }

  /** The only value of the creating process is dropped while another process has a sender and a receiver. */
  lemma LastReferenceGoes(capacity: nat, s: State)
    requires Reaches(capacity, s) && !s.freed && !s.dropping
    requires s.handles == Pair(false) && s.senders == 1 && s.receivers == 1 && s.refs == 1
    requires forall c :: c in s.calls ==> s.calls[c].pc.Done? || s.calls[c].handle != 0
    ensures Reaches(capacity, Dying(s, StoreDropping, 1, 1, false))
  {
    var releasing := s.(handles := Pair(false)[0 := Handle(Plain, true, 0, Releasing)]);
    assert !Borrowed(s, 0);
    Go(capacity, s, Drop(0), releasing);
    var next := Handle(Plain, true, 0, StoreDropping);
    assert releasing.handles[0 := next] == Pair(false)[0 := next];
    Go(capacity, releasing, DropRef(0), Dying(s, StoreDropping, 1, 1, false));
  }

  lemma DestructionComesToWake(capacity: nat, s: State)
    requires !s.freed && Reaches(capacity, Dying(s, StoreDropping, 1, 1, false))
    ensures Reaches(capacity, Dying(s, WakeReceivers(1, 1), 0, 0, true))
  {
    var s1, s2 := Dying(s, StoreDropping, 1, 1, false), Dying(s, SwapReceivers, 1, 1, true);
    DyingMoves(s, StoreDropping, 1, 1, false, SwapReceivers);
    Go(capacity, s1, Destroy(0), s2);
    var s3 := Dying(s, SwapSenders(1), 1, 0, true);
    DyingMoves(s, SwapReceivers, 1, 1, true, SwapSenders(1));
    Go(capacity, s2, Destroy(0), s3);
    DyingMoves(s, SwapSenders(1), 1, 0, true, WakeReceivers(1, 1));
    Go(capacity, s3, Destroy(0), Dying(s, WakeReceivers(1, 1), 0, 0, true));
  }

  lemma ReceiversAreWoken(capacity: nat, s: State)
    requires !s.freed && Sleepers(s, false) == {} && Reaches(capacity, Dying(s, WakeReceivers(1, 1), 0, 0, true))
    ensures Reaches(capacity, Dying(s, WakeSenders(1), 0, 0, true))
  {
    var next := Dying(s, WakeSenders(1), 0, 0, true);
    DyingMoves(s, WakeReceivers(1, 1), 0, 0, true, WakeSenders(1));
    NobodyToWake(next, false);
    Go(capacity, Dying(s, WakeReceivers(1, 1), 0, 0, true), Destroy(0), next);
  }

  /** A call of another process at the point of falling asleep, and the destruction about to wake its side. */
  lemma DestructionMeetsCall(capacity: nat, w: State, c: CallId, op: Op, h: HandleId, sending: bool)
      returns (s: State)
    requires Reaches(capacity, w) && Idle(w, c, op, h) && !Ready(w, op) && h != 0
    requires !op.WaitForMessage? && op.Send? == sending && op.mode == Forever
    requires w.handles == Pair(false) && w.senders == 1 && w.receivers == 1 && w.refs == 1
    requires forall d :: d in w.calls ==> w.calls[d].pc.Done?
    ensures Reaches(capacity, s) && !s.freed
    ensures 0 in s.handles && WakesSide(s.handles[0].phase, sending) && IsAt(s, c, sending, {GoToSleep})
  {
    ComesToCheckClosing(capacity, w, c, op, h);
    Reads(capacity, w, c, op, h, CheckClosing(false), GoToSleep);
    var late := Put(w, c, op, h, GoToSleep, Some(c));
    LastReferenceGoes(capacity, late);
    DestructionComesToWake(capacity, late);
    s := Dying(late, WakeReceivers(1, 1), 0, 0, true);
    if sending {
      ReceiversAreWoken(capacity, late);
      s := Dying(late, WakeSenders(1), 0, 0, true);
    }
  }

  /**
     For every capacity and on both sides, runs come to a destruction about to wake a side of which a
     call is at the point of falling asleep (s), and from there to the queue freed with it asleep (t).
   */
  lemma SomeCallIsAbandoned(capacity: nat, sending: bool) returns (s: State, t: State, c: CallId)
    ensures Reaches(capacity, s) && 0 in s.handles && WakesSide(s.handles[0].phase, sending)
    ensures IsAt(s, c, sending, {GoToSleep}) && Leads(DoDestroy(s, 0), t, None)
    ensures Reaches(capacity, t) && t.freed && IsAt(t, c, sending, {Sleeping})
  {
    if sending {
      var w := FilledIsReached(capacity, capacity, false);
      c := capacity;
      s := DestructionMeetsCall(capacity, w, c, Send(Forever, 5), 1, sending);
    } else {
      PairIsReached(capacity, false);
      c := 0;
      s := DestructionMeetsCall(capacity, WithPair(capacity, false), c, Receive(Forever), 2, sending);
    }
    var s' := DoDestroy(s, 0);
    Go(capacity, s, Destroy(0), s');
    AfterDestructionWakes(s, 0, c, sending);
    FallingAsleepIsMissed(s', 0, c, sending);
    t :| Leads(s', t, None) && IsAt(t, c, sending, {Sleeping}) && t.freed;
    LeadsFurther(Init(capacity), s', t);
  }
}
