/** `atomic_checked_sub` over whole runs: each drop takes one off its count, and no other step does. */
module ChannelCounting {
  import opened Channel
  import opened ChannelLifetimes

  function SaturatingDecrement(n: nat): nat {
    if n == 0 then 0 else n - 1
  }

  predicate IsLoopStep(a: Action, h: HandleId) {
    a == LoadCount(h) || a == SwapOk(h) || a == SwapFails(h)
  }

  /** The counts are left alone and `h` goes on trying, with the count as it is now. */
  ghost predicate TriesAgain(s: State, s': State, h: HandleId) {
    && s'.senders == s.senders && s'.receivers == s.receivers
    && h in s.handles && h in s'.handles
    && s'.handles[h].phase == Swapping(Count(s, s.handles[h].kind))
  }

  /** One saturating decrement of the count of `h`, which is last exactly if that leaves zero. */
  ghost predicate TakesOneOff(s: State, s': State, h: HandleId) {
    && h in s.handles && h in s'.handles
    && var kind := s.handles[h].kind;
       && s'.senders == (if kind == OfSender then SaturatingDecrement(s.senders) else s.senders)
       && s'.receivers == (if kind == OfSender then s.receivers else SaturatingDecrement(s.receivers))
       && s'.handles[h].phase == if Count(s', kind) == 0 then Waking else Releasing
  }

  lemma LoopStep(s: State, a: Action, h: HandleId)
    requires Can(s, a) && IsLoopStep(a, h)
    ensures h in s.handles && BeforeExchange(s.handles[h].phase)
    ensures TriesAgain(s, Do(s, a), h) || TakesOneOff(s, Do(s, a), h)
  {
  }

  /** While nothing is destroyed the decrement never saturates: a dropped value is itself still counted. */
  lemma DecrementNeverSaturates(capacity: nat, states: seq<State>, acts: seq<Action>, i: nat, h: HandleId)
    requires IsRun(capacity, states, acts) && i < |states|
    requires !states[i].dropping || AllHome(states[i])
    requires h in states[i].handles && (states[i].handles[h].phase == Counting || states[i].handles[h].phase.Swapping?)
    ensures Count(states[i], states[i].handles[h].kind) > 0
  {
    RunKeepsLifetimes(capacity, states, acts, i);
    var s := states[i];
    assert PhaseOk(s.handles[h]);
    assert Count(s, OfSender) == |CountedSet(s, OfSender)| && Count(s, OfReceiver) == |CountedSet(s, OfReceiver)|;
    RegisteredMeansPositive(s, h, s.handles[h].kind);
  }

  /** Not yet through the exchange loop. */
  predicate BeforeExchange(phase: Phase) {
    phase == Cloning || phase == Joining || phase == Live || phase == Counting || phase.Swapping?
  }

  /** The counts may have been taken to zero over the heads of values of other processes. */
  ghost predicate CountsTaken(s: State) {
    s.dropping && !AllHome(s)
  }

  lemma CountsStayTaken(s: State, a: Action)
    requires Can(s, a) && CountsTaken(s)
    ensures CountsTaken(Do(s, a))
  {
    DroppingStep(s, a);
    var h :| h in s.handles && !s.handles[h].home;
    if IsCallAction(a) {
      CallStepKeepsHandles(s, a);
    } else {
      OneHandleMoves(s, a);
    }
    assert h in Do(s, a).handles && !Do(s, a).handles[h].home;
  }

  /** How often `h` has taken one off its count in the first `i` steps. */
  ghost function Decrements(acts: seq<Action>, i: nat, h: HandleId): nat
    requires i <= |acts|
  {
    if i == 0 then 0 else Decrements(acts, i - 1, h) + if acts[i - 1] == SwapOk(h) then 1 else 0
  }

  lemma MakingStaysBefore(s: State, a: Action)
    requires IsMaking(a) && CanHandle(s, a) && DoMake(s, a).handles[a.h].kind != Plain
    ensures BeforeExchange(DoMake(s, a).handles[a.h].phase)
    ensures a.h in s.handles ==> BeforeExchange(s.handles[a.h].phase)
  {
  }

  /** Only the exchange, or finding nothing to take off, ends the loop. */
  lemma LoopEnds(s: State, a: Action)
    requires (a.LoadCount? || a.SwapOk? || a.SwapFails?) && CanHandle(s, a)
    requires Count(s, s.handles[a.h].kind) > 0
    ensures BeforeExchange(s.handles[a.h].phase)
    ensures BeforeExchange(DoWindDown(s, a).handles[a.h].phase) <==> !a.SwapOk?
  {
  }

  /** The exchange of `h` and nothing else takes it out of the loop. */
  ghost predicate ExchangeMove(s: State, a: Action, s': State, h: HandleId)
    requires h in s'.handles
  {
    var after := BeforeExchange(s'.handles[h].phase);
    if h in s.handles then
      && s'.handles[h].kind == s.handles[h].kind
      && if a == SwapOk(h) then BeforeExchange(s.handles[h].phase) && !after
         else after <==> BeforeExchange(s.handles[h].phase)
    else a != SwapOk(h) && after
  }

  lemma OwnExchange(s: State, a: Action)
    requires Lifetimes(s) && Can(s, a) && !IsCallAction(a) && OneMovedHandle(s, Do(s, a), a.h)
    requires Do(s, a).handles[a.h].kind != Plain && !CountsTaken(s)
    ensures ExchangeMove(s, a, Do(s, a), a.h)
  {
    if IsMaking(a) {
      MakingStaysBefore(s, a);
    } else if a.Destroy? {
      DestructionPhase(s, a.h);
    } else if a.Broadcast? {
      BroadcastMoves(s, a.h);
    } else if a.DropRef? {
      ReleaseMoves(s, a.h);
    } else {
      assert PhaseOk(s.handles[a.h]);
      RegisteredMeansPositive(s, a.h, s.handles[a.h].kind);
      LoopEnds(s, a);
    }
  }

  lemma ExchangeStep(s: State, a: Action, h: HandleId)
    requires Lifetimes(s) && Can(s, a) && h in Do(s, a).handles && Do(s, a).handles[h].kind != Plain
    requires !CountsTaken(s)
    ensures ExchangeMove(s, a, Do(s, a), h)
  {
    if IsCallAction(a) {
      CallStepKeepsHandles(s, a);
    } else {
      OneHandleMoves(s, a);
      if a.h == h {
        OwnExchange(s, a);
      }
    }
  }

  lemma ExchangeInRun(capacity: nat, states: seq<State>, acts: seq<Action>, m: nat, h: HandleId)
    requires IsRun(capacity, states, acts) && m < |acts|
    requires h in states[m + 1].handles && states[m + 1].handles[h].kind != Plain
    requires !CountsTaken(states[m + 1])
    ensures !CountsTaken(states[m]) && ExchangeMove(states[m], acts[m], states[m + 1], h)
  {
    RunKeepsLifetimes(capacity, states, acts, m);
    assert Step(states[m], acts[m], states[m + 1]);
    if CountsTaken(states[m]) {
      CountsStayTaken(states[m], acts[m]);
    }
    ExchangeStep(states[m], acts[m], h);
  }

  lemma HandleStays(s: State, a: Action, h: HandleId)
    requires Can(s, a) && (h in s.handles || a == SwapOk(h))
    ensures h in Do(s, a).handles
  {
    if IsCallAction(a) {
      CallStepKeepsHandles(s, a);
    } else {
      OneHandleMoves(s, a);
    }
  }

  /** One decrement for a sender (receiver) that is through the loop, none for any other value. */
  ghost predicate DecrementsOk(states: seq<State>, acts: seq<Action>, i: nat, h: HandleId)
    requires i < |states| && i <= |acts|
  {
    if h !in states[i].handles then Decrements(acts, i, h) == 0
    else states[i].handles[h].kind == Plain || CountsTaken(states[i])
         || Decrements(acts, i, h) == if BeforeExchange(states[i].handles[h].phase) then 0 else 1
  }

  lemma DecrementsStep(capacity: nat, states: seq<State>, acts: seq<Action>, m: nat, h: HandleId)
    requires IsRun(capacity, states, acts) && m < |acts| && DecrementsOk(states, acts, m, h)
    ensures DecrementsOk(states, acts, m + 1, h)
  {
    if h !in states[m + 1].handles {
      assert Step(states[m], acts[m], states[m + 1]);
      if h in states[m].handles || acts[m] == SwapOk(h) {
        HandleStays(states[m], acts[m], h);
      }
    } else if states[m + 1].handles[h].kind != Plain && !CountsTaken(states[m + 1]) {
      ExchangeInRun(capacity, states, acts, m, h);
    }
  }

  lemma {:induction false} DecrementsAlong(capacity: nat, states: seq<State>, acts: seq<Action>, i: nat, h: HandleId)
    requires IsRun(capacity, states, acts) && i < |states|
    ensures DecrementsOk(states, acts, i, h)
  {
    if i > 0 {
      DecrementsAlong(capacity, states, acts, i - 1, h);
      DecrementsStep(capacity, states, acts, i - 1, h);
    }
  }

  /**
     Over a whole run, each dropped sender (receiver) takes exactly one off its count, between
     entering the exchange loop and leaving it, unless a destruction has taken the counts to zero
     while other processes still had values.
   */
  lemma EachDropDecrementsOnce(capacity: nat, states: seq<State>, acts: seq<Action>, i: nat, h: HandleId)
    requires IsRun(capacity, states, acts) && i < |states|
    requires h in states[i].handles && states[i].handles[h].kind != Plain
    requires !CountsTaken(states[i])
    ensures Decrements(acts, i, h) == if BeforeExchange(states[i].handles[h].phase) then 0 else 1
  {
    DecrementsAlong(capacity, states, acts, i, h);
  }

  // ----- The whole loop is one saturating decrement -------------------------------------------

  /** Every step of the loop of `h` before `i`, other than step `but`, changes nothing and tries again. */
  ghost predicate OnlyTries(states: seq<State>, acts: seq<Action>, i: nat, h: HandleId, but: int)
    requires i <= |acts| < |states|
  {
    forall n :: 0 <= n < i && n != but && IsLoopStep(acts[n], h) ==> TriesAgain(states[n], states[n + 1], h)
  }

  /** Step `m` is the one decrement of `h`. */
  ghost predicate DecrementsAt(states: seq<State>, acts: seq<Action>, i: nat, h: HandleId, m: nat)
    requires i <= |acts| < |states|
  {
    m < i && IsLoopStep(acts[m], h) && TakesOneOff(states[m], states[m + 1], h) && OnlyTries(states, acts, i, h, m)
  }

  /** Through the loop. */
  ghost predicate HasLeft(s: State, h: HandleId) {
    h in s.handles && s.handles[h].kind != Plain && !BeforeExchange(s.handles[h].phase)
  }

  ghost predicate LoopOk(states: seq<State>, acts: seq<Action>, i: nat, h: HandleId)
    requires i <= |acts| < |states|
  {
    if HasLeft(states[i], h) then exists m: nat :: DecrementsAt(states, acts, i, h, m)
    else OnlyTries(states, acts, i, h, -1)
  }

  lemma OthersKeepPlace(s: State, a: Action, h: HandleId)
    requires Lifetimes(s) && Can(s, a) && !IsLoopStep(a, h)
    ensures HasLeft(Do(s, a), h) <==> HasLeft(s, h)
  {
    if IsCallAction(a) {
      CallStepKeepsHandles(s, a);
    } else {
      OneHandleMoves(s, a);
      if a.h == h && Do(s, a).handles[h].kind != Plain {
        OwnPlaceKept(s, a);
      }
    }
  }

  lemma OwnPlaceKept(s: State, a: Action)
    requires !IsCallAction(a) && !IsLoopStep(a, a.h) && CanHandle(s, a)
    requires a.h in s.handles ==> PhaseOk(s.handles[a.h])
    requires a.h in DoHandle(s, a).handles && DoHandle(s, a).handles[a.h].kind != Plain
    ensures var after := BeforeExchange(DoHandle(s, a).handles[a.h].phase);
            if a.h in s.handles then after <==> BeforeExchange(s.handles[a.h].phase) else after
  {
    if IsMaking(a) {
      MakingStaysBefore(s, a);
    } else if a.Destroy? {
      DestructionPhase(s, a.h);
    } else if a.Broadcast? {
      BroadcastMoves(s, a.h);
    } else {
      ReleaseMoves(s, a.h);
    }
  }

  lemma OneStepMore(states: seq<State>, acts: seq<Action>, i: nat, h: HandleId, but: int)
    requires i < |acts| < |states| && OnlyTries(states, acts, i, h, but)
    requires but == i || (IsLoopStep(acts[i], h) ==> TriesAgain(states[i], states[i + 1], h))
    ensures OnlyTries(states, acts, i + 1, h, but)
  {
  }

  ghost predicate PlaceOk(s: State, a: Action, s': State, h: HandleId) {
    if IsLoopStep(a, h) then
      !HasLeft(s, h) && if HasLeft(s', h) then TakesOneOff(s, s', h) else TriesAgain(s, s', h)
    else HasLeft(s', h) <==> HasLeft(s, h)
  }

  lemma LoopPlace(s: State, a: Action, h: HandleId)
    requires Lifetimes(s) && Can(s, a) && IsLoopStep(a, h)
    ensures !HasLeft(s, h)
    ensures if HasLeft(Do(s, a), h) then TakesOneOff(s, Do(s, a), h) else TriesAgain(s, Do(s, a), h)
  {
    LoopStep(s, a, h);
    OneHandleMoves(s, a);
    LoopIsForPeers(s, a, h);
  }

  lemma LoopIsForPeers(s: State, a: Action, h: HandleId)
    requires Lifetimes(s) && Can(s, a) && IsLoopStep(a, h)
    ensures s.handles[h].kind != Plain
  {
    assert PhaseOk(s.handles[h]);
  }

  /** Where one step takes a value that goes through the loop. */
  lemma PlaceAfterStep(s: State, a: Action, h: HandleId)
    requires Lifetimes(s) && Can(s, a)
    ensures PlaceOk(s, a, Do(s, a), h)
  {
    if IsLoopStep(a, h) {
      LoopPlace(s, a, h);
    } else {
      OthersKeepPlace(s, a, h);
    }
  }

  lemma PlaceInRun(capacity: nat, states: seq<State>, acts: seq<Action>, i: nat, h: HandleId)
    requires IsRun(capacity, states, acts) && i < |acts|
    ensures PlaceOk(states[i], acts[i], states[i + 1], h)
  {
    RunKeepsLifetimes(capacity, states, acts, i);
    assert Step(states[i], acts[i], states[i + 1]);
    PlaceAfterStep(states[i], acts[i], h);
  }

  lemma LoopOkStep(states: seq<State>, acts: seq<Action>, i: nat, h: HandleId)
    requires i < |acts| < |states| && LoopOk(states, acts, i, h) && PlaceOk(states[i], acts[i], states[i + 1], h)
    ensures LoopOk(states, acts, i + 1, h)
  {
    if HasLeft(states[i], h) {
      var m: nat :| DecrementsAt(states, acts, i, h, m);
      OneStepMore(states, acts, i, h, m);
      assert DecrementsAt(states, acts, i + 1, h, m);
    } else if HasLeft(states[i + 1], h) {
      LastStep(states, acts, i, h);
      assert DecrementsAt(states, acts, i + 1, h, i);
    } else {
      OneStepMore(states, acts, i, h, -1);
    }
  }

  lemma LastStep(states: seq<State>, acts: seq<Action>, i: nat, h: HandleId)
    requires i < |acts| < |states| && OnlyTries(states, acts, i, h, -1)
    ensures OnlyTries(states, acts, i + 1, h, i)
  {
  }

  lemma {:induction false} LoopOkAlong(states: seq<State>, acts: seq<Action>, i: nat, h: HandleId)
    requires i <= |acts| < |states| && !HasLeft(states[0], h)
    requires forall m :: 0 <= m < i ==> PlaceOk(states[m], acts[m], states[m + 1], h)
    ensures LoopOk(states, acts, i, h)
  {
    if i > 0 {
      var k: nat := i - 1;
      LoopOkAlong(states, acts, k, h);
      LoopOkStep(states, acts, k, h);
    }
  }

  /**
     In every run, whatever other steps come between: the exchange loop of a dropped sender (receiver)
     acts as one atomic saturating decrement at one of its steps, with the answer that belongs to it;
     its other steps leave the counts alone.
   */
  lemma DropIsOneSaturatingDecrement(capacity: nat, states: seq<State>, acts: seq<Action>, i: nat, h: HandleId)
    requires IsRun(capacity, states, acts) && i < |states|
    ensures if HasLeft(states[i], h) then exists m: nat :: DecrementsAt(states, acts, i, h, m)
            else OnlyTries(states, acts, i, h, -1)
  {
    forall m | 0 <= m < i ensures PlaceOk(states[m], acts[m], states[m + 1], h) {
      PlaceInRun(capacity, states, acts, m, h);
    }
    assert !HasLeft(states[0], h);
    LoopOkAlong(states, acts, i, h);
  }
}
