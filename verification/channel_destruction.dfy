/** The counts that the destruction takes over, and acts on two steps later. */
module ChannelDestruction {
  import opened Channel
  import opened ChannelLifetimes

  /** At step `m` the destruction takes the count of receivers, which was `n`, to zero. */
  ghost predicate TakesReceivers(states: seq<State>, acts: seq<Action>, i: nat, h: HandleId, m: nat, n: nat)
    requires i <= |acts| < |states|
  {
    m < i && acts[m] == Destroy(h) && states[m].receivers == n && states[m + 1].receivers == 0 && states[m].dropping
  }

  ghost predicate TakesSenders(states: seq<State>, acts: seq<Action>, i: nat, h: HandleId, m: nat, n: nat)
    requires i <= |acts| < |states|
  {
    m < i && acts[m] == Destroy(h) && states[m].senders == n && states[m + 1].senders == 0 && states[m].dropping
  }

  /** What the phase remembers is what was taken. */
  ghost predicate Remembers(states: seq<State>, acts: seq<Action>, i: nat, h: HandleId, phase: Phase)
    requires i <= |acts| < |states|
  {
    match phase
    case SwapSenders(receivers) => exists m: nat :: TakesReceivers(states, acts, i, h, m, receivers)
    case WakeReceivers(receivers, senders) =>
      && (exists m: nat :: TakesReceivers(states, acts, i, h, m, receivers))
      && (exists m: nat :: TakesSenders(states, acts, i, h, m, senders))
    case WakeSenders(senders) => exists m: nat :: TakesSenders(states, acts, i, h, m, senders)
    case _ => true
  }

  /** One step of the destruction: what it takes, and what it remembers of it. */
  ghost predicate Advances(s: State, s': State, phase: Phase, next: Phase) {
    match next
    case SwapReceivers => phase.StoreDropping? && s'.dropping
    case SwapSenders(receivers) => phase.SwapReceivers? && receivers == s.receivers && s'.receivers == 0
    case WakeReceivers(receivers, senders) =>
      phase == SwapSenders(receivers) && senders == s.senders && s'.senders == 0
    case WakeSenders(senders) => phase.WakeReceivers? && senders == phase.senders
    case LastLock => phase.WakeSenders?
    case Destroyed => phase.LastLock? && s'.freed
    case _ => false
  }

  lemma DestructionAdvances(s: State, h: HandleId)
    requires h in s.handles && IsDestruction(s.handles[h].phase)
    ensures Advances(s, DoDestroy(s, h), s.handles[h].phase, DoDestroy(s, h).handles[h].phase)
  {
    if s.handles[h].phase.WakeReceivers? || s.handles[h].phase.WakeSenders? {
      WakingAdvances(s, h);
    } else {
      TakingAdvances(s, h);
    }
  }

  lemma WakingAdvances(s: State, h: HandleId)
    requires h in s.handles && (s.handles[h].phase.WakeReceivers? || s.handles[h].phase.WakeSenders?)
    ensures Advances(s, DoDestroy(s, h), s.handles[h].phase, DoDestroy(s, h).handles[h].phase)
  {
  }

  lemma TakingAdvances(s: State, h: HandleId)
    requires h in s.handles && IsDestruction(s.handles[h].phase)
    requires !s.handles[h].phase.WakeReceivers? && !s.handles[h].phase.WakeSenders?
    ensures Advances(s, DoDestroy(s, h), s.handles[h].phase, DoDestroy(s, h).handles[h].phase)
  {
  }

  predicate IsWithin(phase: Phase) {
    phase.SwapSenders? || phase.WakeReceivers? || phase.WakeSenders?
  }

  /** No other step comes to the phases that remember counts. */
  lemma OnlyDestructionRemembers(s: State, a: Action, h: HandleId)
    requires Can(s, a) && a != Destroy(h) && h in Do(s, a).handles && IsWithin(Do(s, a).handles[h].phase)
    requires h in s.handles ==> PhaseOk(s.handles[h])
    ensures h in s.handles && Do(s, a).handles[h] == s.handles[h]
  {
    if IsCallAction(a) {
      CallStepKeepsHandles(s, a);
    } else {
      OneHandleMoves(s, a);
      if a.h == h {
        OwnStepIsNotWithin(s, a);
      }
    }
  }

  lemma OwnStepIsNotWithin(s: State, a: Action)
    requires !IsCallAction(a) && !a.Destroy? && CanHandle(s, a) && a.h in DoHandle(s, a).handles
    requires a.h in s.handles ==> PhaseOk(s.handles[a.h])
    ensures !IsWithin(DoHandle(s, a).handles[a.h].phase)
  {
    if a.Broadcast? {
      BroadcastMoves(s, a.h);
    } else if a.DropRef? {
      ReleaseMoves(s, a.h);
    } else if IsMaking(a) {
      MakingIsNotWithin(s, a);
    } else {
      LoopIsNotWithin(s, a);
    }
  }

  lemma MakingIsNotWithin(s: State, a: Action)
    requires IsMaking(a) && CanHandle(s, a)
    ensures a.h in DoMake(s, a).handles ==> !IsWithin(DoMake(s, a).handles[a.h].phase)
  {
  }

  lemma LoopIsNotWithin(s: State, a: Action)
    requires (a.LoadCount? || a.SwapOk? || a.SwapFails?) && CanHandle(s, a)
    ensures !IsWithin(DoWindDown(s, a).handles[a.h].phase)
  {
  }

  ghost predicate RemembersAll(states: seq<State>, acts: seq<Action>, i: nat, h: HandleId)
    requires i <= |acts| < |states|
  {
    h in states[i].handles ==> Remembers(states, acts, i, h, states[i].handles[h].phase)
  }

  lemma RemembersLater(states: seq<State>, acts: seq<Action>, i: nat, h: HandleId, phase: Phase)
    requires i < |acts| < |states| && Remembers(states, acts, i, h, phase)
    ensures Remembers(states, acts, i + 1, h, phase)
  {
    match phase
    case SwapSenders(receivers) =>
      var m: nat :| TakesReceivers(states, acts, i, h, m, receivers);
      assert TakesReceivers(states, acts, i + 1, h, m, receivers);
    case WakeReceivers(receivers, senders) =>
      var m: nat :| TakesReceivers(states, acts, i, h, m, receivers);
      assert TakesReceivers(states, acts, i + 1, h, m, receivers);
      var n: nat :| TakesSenders(states, acts, i, h, n, senders);
      assert TakesSenders(states, acts, i + 1, h, n, senders);
    case WakeSenders(senders) =>
      var n: nat :| TakesSenders(states, acts, i, h, n, senders);
      assert TakesSenders(states, acts, i + 1, h, n, senders);
    case _ =>
  }

  lemma AdvancingRemembers(states: seq<State>, acts: seq<Action>, i: nat, h: HandleId, phase: Phase, next: Phase)
    requires i < |acts| < |states| && Remembers(states, acts, i, h, phase) && acts[i] == Destroy(h)
    requires Advances(states[i], states[i + 1], phase, next) && (phase.StoreDropping? || states[i].dropping)
    ensures Remembers(states, acts, i + 1, h, next)
  {
    RemembersLater(states, acts, i, h, phase);
    match next
    case SwapSenders(receivers) => assert TakesReceivers(states, acts, i + 1, h, i, receivers);
    case WakeReceivers(_, senders) => assert TakesSenders(states, acts, i + 1, h, i, senders);
    case _ =>
  }

  lemma RemembersStep(capacity: nat, states: seq<State>, acts: seq<Action>, i: nat, h: HandleId)
    requires IsRun(capacity, states, acts) && i < |acts| && RemembersAll(states, acts, i, h)
    ensures RemembersAll(states, acts, i + 1, h)
  {
    RunKeepsLifetimes(capacity, states, acts, i);
    assert Step(states[i], acts[i], states[i + 1]);
    if acts[i] == Destroy(h) {
      var phase := states[i].handles[h].phase;
      assert IsCloser(states[i].handles[h]);
      DestructionAdvances(states[i], h);
      AdvancingRemembers(states, acts, i, h, phase, states[i + 1].handles[h].phase);
    } else if h in states[i + 1].handles && IsWithin(states[i + 1].handles[h].phase) {
      assert h in states[i].handles ==> PhaseOk(states[i].handles[h]);
      OnlyDestructionRemembers(states[i], acts[i], h);
      RemembersLater(states, acts, i, h, states[i].handles[h].phase);
    }
  }

  /**
     The destruction sets both counts to zero, after `dropping`, and what decides later on whether it
     broadcasts to a side is the count of that side that it found.
   */
  lemma DestructionActsOnWhatItFound(capacity: nat, states: seq<State>, acts: seq<Action>, i: nat, h: HandleId)
    requires IsRun(capacity, states, acts) && i < |states| && h in states[i].handles
    ensures match states[i].handles[h].phase
            case WakeReceivers(receivers, _) => exists m: nat :: TakesReceivers(states, acts, i, h, m, receivers)
            case WakeSenders(senders) => exists m: nat :: TakesSenders(states, acts, i, h, m, senders)
            case _ => true
  {
    RemembersAlong(capacity, states, acts, i, h);
  }

  lemma {:induction false} RemembersAlong(capacity: nat, states: seq<State>, acts: seq<Action>, i: nat, h: HandleId)
    requires IsRun(capacity, states, acts) && i < |states|
    ensures RemembersAll(states, acts, i, h)
  {
    if i > 0 {
      RemembersAlong(capacity, states, acts, i - 1, h);
      RemembersStep(capacity, states, acts, i - 1, h);
    }
  }
}
