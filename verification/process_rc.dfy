/**
 The fork-aware reference counter of `src/process_rc.rs`: any number of concurrent `increase` and
 `decrease` calls, one atomic access a step.
 */
module ProcessRc {

  type ThreadId = nat

  datatype Pc =
    | IncLoad
    | IncSwap(count: int)        // `count` as loaded
    | IncAdd
    | IncSub(count: int)         // process change seen: reset to one
    | IncPanic                   // "counter equals to zero"
    | Increased
    | DecSwap
    | DecSub
    | MoveAlong
    | LastOne(counted: bool)     // `counted` if the counter was decremented

  /** The counter is kept as an integer so that an underflow would show. */
  datatype State = State(counter: int, pid: int, threads: map<ThreadId, Pc>)

  datatype Action = Increase(t: ThreadId) | Decrease(t: ThreadId) | Step(t: ThreadId)

  predicate IsOver(pc: Pc) {
    pc.IncPanic? || pc.Increased? || pc.MoveAlong? || pc.LastOne?
  }

  predicate Can(s: State, a: Action) {
    match a
    case Increase(t) => t !in s.threads
    case Decrease(t) => t !in s.threads
    case Step(t) => t in s.threads && !IsOver(s.threads[t])
  }

  /** One step in process `me`. */
  function Do(s: State, a: Action, me: int): State
    requires Can(s, a)
  {
    match a
    case Increase(t) => s.(threads := s.threads[t := IncLoad])
    case Decrease(t) => s.(threads := s.threads[t := DecSwap])
    case Step(t) =>
      match s.threads[t]
      case IncLoad => s.(threads := s.threads[t := IncSwap(s.counter)])
      case IncSwap(count) =>
        var next := if s.pid == me then IncAdd else if count == 0 then IncPanic else IncSub(count);
        s.(pid := me, threads := s.threads[t := next])
      case IncAdd => s.(counter := s.counter + 1, threads := s.threads[t := Increased])
      case IncSub(count) => s.(counter := s.counter - (count - 1), threads := s.threads[t := Increased])
      case DecSwap =>
        s.(pid := me, threads := s.threads[t := if s.pid == me then DecSub else LastOne(false)])
      case DecSub =>
        s.(counter := s.counter - 1, threads := s.threads[t := if s.counter == 1 then LastOne(true) else MoveAlong])
  }

  ghost predicate IsRun(c: int, pid: int, me: int, states: seq<State>, acts: seq<Action>) {
    && |states| == |acts| + 1
    && states[0] == State(c, pid, map[])
    && forall i :: 0 <= i < |acts| ==> Can(states[i], acts[i]) && states[i + 1] == Do(states[i], acts[i], me)
  }

  ghost function IncreasedSet(s: State): set<ThreadId> {
    set t | t in s.threads && s.threads[t] == Increased
  }

  ghost function DecreasedSet(s: State): set<ThreadId> {
    set t | t in s.threads && (s.threads[t] == MoveAlong || s.threads[t] == LastOne(true))
  }

  lemma IncreasedAfterStep(s: State, s': State, t: ThreadId)
    requires t in s'.threads && s'.threads == s.threads[t := s'.threads[t]]
    requires t in s.threads ==> !IsOver(s.threads[t])
    ensures |IncreasedSet(s')| == |IncreasedSet(s)| + if s'.threads[t] == Increased then 1 else 0
  {
    assert t !in IncreasedSet(s);
    assert IncreasedSet(s') == if s'.threads[t] == Increased then IncreasedSet(s) + {t} else IncreasedSet(s);
  }

  lemma DecreasedAfterStep(s: State, s': State, t: ThreadId)
    requires t in s'.threads && s'.threads == s.threads[t := s'.threads[t]]
    requires t in s.threads ==> !IsOver(s.threads[t])
    ensures |DecreasedSet(s')| == |DecreasedSet(s)|
                                  + if s'.threads[t] == MoveAlong || s'.threads[t] == LastOne(true) then 1 else 0
  {
    assert t !in DecreasedSet(s);
    assert DecreasedSet(s') == if s'.threads[t] == MoveAlong || s'.threads[t] == LastOne(true)
                               then DecreasedSet(s) + {t} else DecreasedSet(s);
  }

  // ----- Once the pid is ours -----------------------------------------------------------------

  /** Every finished call has counted, from `base` on, and no reset is under way. */
  ghost predicate Counting(s: State, base: int, me: int) {
    && s.pid == me
    && (forall t :: t in s.threads ==> !s.threads[t].IncSub? && !s.threads[t].IncPanic?)
    && s.counter == base + |IncreasedSet(s)| - |DecreasedSet(s)|
  }

  /** Some `decrease` was the first to see a new process, and has claimed to be the last. */
  ghost predicate Forestalled(s: State) {
    exists t :: t in s.threads && s.threads[t] == LastOne(false)
  }

  lemma CountingMove(s: State, a: Action, me: int)
    requires s.pid == me && Can(s, a)
    requires a.t in s.threads ==> !s.threads[a.t].IncSub?
    ensures var s' := Do(s, a, me);
            && s'.pid == me
            && a.t in s'.threads && s'.threads == s.threads[a.t := s'.threads[a.t]]
            && !s'.threads[a.t].IncSub? && !s'.threads[a.t].IncPanic? && s'.threads[a.t] != LastOne(false)
            && s'.counter == s.counter
                             + (if s'.threads[a.t] == Increased then 1 else 0)
                             - (if s'.threads[a.t] == MoveAlong || s'.threads[a.t] == LastOne(true) then 1 else 0)
    ensures a.t in s.threads ==> !IsOver(s.threads[a.t])
  {
  }

  lemma CountingStep(s: State, a: Action, base: int, me: int)
    requires Counting(s, base, me) && Can(s, a)
    ensures Counting(Do(s, a, me), base, me)
    ensures Forestalled(Do(s, a, me)) <==> Forestalled(s)
    ensures IncreasedSet(s) <= IncreasedSet(Do(s, a, me))
  {
    var s' := Do(s, a, me);
    CountingMove(s, a, me);
    IncreasedAfterStep(s, s', a.t);
    DecreasedAfterStep(s, s', a.t);
    if t :| t in s.threads && s.threads[t] == LastOne(false) {
      assert t in s'.threads && s'.threads[t] == LastOne(false);
    }
  }

  /**
     In the process that set the pid, each `increase` adds exactly one and each `decrease` takes
     exactly one off: the counter is always the initial count plus finished increases less finished
     decreases.
   */
  lemma {:induction false} HomeCounterIsExact(c: int, me: int, states: seq<State>, acts: seq<Action>, i: nat)
    requires IsRun(c, me, me, states, acts) && i < |states|
    ensures Counting(states[i], c, me) && !Forestalled(states[i])
  {
    if i == 0 {
      assert IncreasedSet(states[0]) == {} && DecreasedSet(states[0]) == {};
    } else {
      HomeCounterIsExact(c, me, states, acts, i - 1);
      CountingStep(states[i - 1], acts[i - 1], c, me);
    }
  }

  // ----- In a forked child --------------------------------------------------------------------

  /** Nobody has swapped the pid yet: whatever was loaded is the inherited count. */
  ghost predicate BeforeSwap(s: State, c: int, parent: int) {
    && s.pid == parent && s.counter == c
    && forall t :: t in s.threads ==> s.threads[t] == IncLoad || s.threads[t] == IncSwap(c) || s.threads[t] == DecSwap
  }

  /** Call `r` alone saw the old pid and has the inherited count, less one, still to take off. */
  ghost predicate Resetting(s: State, c: int, me: int, r: ThreadId) {
    && s.pid == me && !Forestalled(s)
    && r in s.threads && s.threads[r] == IncSub(c)
    && (forall t :: t in s.threads ==> s.threads[t] != IncPanic && (s.threads[t].IncSub? ==> t == r))
    && s.counter == c + |IncreasedSet(s)| - |DecreasedSet(s)|
  }

  ghost predicate ResetOk(s: State, c: int, me: int) {
    || (exists r :: Resetting(s, c, me, r))
    || (Counting(s, 0, me) && !Forestalled(s) && IncreasedSet(s) != {})
  }

  /** The first swap of the pid in the child, made by an `increase`. */
  predicate StartsReset(s: State, a: Action, parent: int) {
    a.Step? && a.t in s.threads && s.threads[a.t].IncSwap? && s.pid == parent
  }

  lemma FirstSwap(s: State, a: Action, c: int, parent: int, me: int)
    requires c >= 1 && parent != me && BeforeSwap(s, c, parent) && Can(s, a)
    ensures var s' := Do(s, a, me);
            if StartsReset(s, a, parent) then Resetting(s', c, me, a.t)
            else BeforeSwap(s', c, parent) || (Counting(s', c, me) && Forestalled(s'))
  {
    var s' := Do(s, a, me);
    assert IncreasedSet(s') == {} && DecreasedSet(s') == {};
    if a.Step? && s.threads[a.t] == DecSwap {
      assert s'.threads[a.t] == LastOne(false);
    }
  }

  lemma ResettingStep(s: State, a: Action, c: int, me: int, r: ThreadId)
    requires Resetting(s, c, me, r) && Can(s, a)
    ensures ResetOk(Do(s, a, me), c, me)
  {
    var s' := Do(s, a, me);
    IncreasedAfterStep(s, s', a.t);
    DecreasedAfterStep(s, s', a.t);
    if a == Step(r) {
      assert r in IncreasedSet(s');
    } else {
      CountingMove(s, a, me);
      assert Resetting(s', c, me, r);
    }
  }

  lemma ResetStep(s: State, a: Action, c: int, me: int)
    requires ResetOk(s, c, me) && Can(s, a)
    ensures ResetOk(Do(s, a, me), c, me)
  {
    if r :| Resetting(s, c, me, r) {
      ResettingStep(s, a, c, me, r);
    } else {
      CountingStep(s, a, 0, me);
    }
  }

  /** An `increase` has been the first in the child to swap the pid. */
  ghost predicate ResetBegun(states: seq<State>, acts: seq<Action>, i: nat, parent: int)
    requires i <= |states| && i <= |acts|
  {
    exists m :: 0 <= m < i && StartsReset(states[m], acts[m], parent)
  }

  /** Which of the three is true, at any time in the child. */
  lemma {:induction false} ForkRun(c: int, parent: int, me: int, states: seq<State>, acts: seq<Action>, i: nat)
    requires c >= 1 && parent != me
    requires IsRun(c, parent, me, states, acts) && i < |states|
    ensures if ResetBegun(states, acts, i, parent) then ResetOk(states[i], c, me)
            else BeforeSwap(states[i], c, parent) || (Counting(states[i], c, me) && Forestalled(states[i]))
  {
    if i > 0 {
      var s, a := states[i - 1], acts[i - 1];
      ForkRun(c, parent, me, states, acts, i - 1);
      assert ResetBegun(states, acts, i, parent)
        <==> ResetBegun(states, acts, i - 1, parent) || StartsReset(s, a, parent);
      if ResetBegun(states, acts, i - 1, parent) {
        ResetStep(s, a, c, me);
      } else if BeforeSwap(s, c, parent) {
        FirstSwap(s, a, c, parent, me);
      } else {
        CountingStep(s, a, c, me);
      }
    }
  }

  /** All calls are over, and there were some. */
  ghost predicate Settled(s: State) {
    s.threads != map[] && forall t :: t in s.threads ==> IsOver(s.threads[t])
  }

  /**
     In a child that has inherited a count c >= 1, however increases and decreases interleave: once
     all calls are over, the counter is exact if and only if an `increase` was the first to swap the
     pid. Otherwise the inherited count stays in it for good, and a `decrease` has claimed to be the
     last without counting.
   */
  lemma ForkResetIff(c: int, parent: int, me: int, states: seq<State>, acts: seq<Action>, i: nat)
    requires c >= 1 && parent != me
    requires IsRun(c, parent, me, states, acts) && i < |states| && Settled(states[i])
    ensures var s := states[i];
            && (s.counter == |IncreasedSet(s)| - |DecreasedSet(s)| <==> ResetBegun(states, acts, i, parent))
            && (s.counter == c + |IncreasedSet(s)| - |DecreasedSet(s)| <==> !ResetBegun(states, acts, i, parent))
            && (Forestalled(s) <==> !ResetBegun(states, acts, i, parent))
  {
    ForkRun(c, parent, me, states, acts, i);
    var t :| t in states[i].threads;
    assert IsOver(states[i].threads[t]);
  }

  predicate Panicked(s: State, t: ThreadId) {
    t in s.threads && s.threads[t] == IncPanic
  }

  /** Before any swap nobody has panicked; after it, somebody has if the swap found a count of zero. */
  ghost predicate PanicOk(states: seq<State>, acts: seq<Action>, i: nat, c: int, parent: int, me: int)
    requires i <= |acts| < |states|
  {
    var begun := ResetBegun(states, acts, i, parent);
    || (BeforeSwap(states[i], c, parent) && !begun)
    || (states[i].pid == me && ((exists t :: Panicked(states[i], t)) <==> begun && c == 0))
  }

  lemma SwapPanics(s: State, a: Action, c: int, parent: int, me: int)
    requires parent != me && BeforeSwap(s, c, parent) && Can(s, a)
    ensures var s' := Do(s, a, me);
            if StartsReset(s, a, parent) then s'.pid == me && ((exists t :: Panicked(s', t)) <==> c == 0)
            else BeforeSwap(s', c, parent) || (s'.pid == me && forall t :: !Panicked(s', t))
  {
    var s' := Do(s, a, me);
    if StartsReset(s, a, parent) && c == 0 {
      assert Panicked(s', a.t);
    }
  }

  lemma PanicsOnlyAtSwap(s: State, a: Action, me: int)
    requires s.pid == me && Can(s, a)
    ensures Do(s, a, me).pid == me && forall t :: Panicked(Do(s, a, me), t) <==> Panicked(s, t)
  {
  }

  lemma {:induction false} PanicRun(c: int, parent: int, me: int, states: seq<State>, acts: seq<Action>, i: nat)
    requires parent != me && IsRun(c, parent, me, states, acts) && i < |states|
    ensures PanicOk(states, acts, i, c, parent, me)
  {
    if i > 0 {
      var s, a := states[i - 1], acts[i - 1];
      PanicRun(c, parent, me, states, acts, i - 1);
      assert ResetBegun(states, acts, i, parent)
        <==> ResetBegun(states, acts, i - 1, parent) || StartsReset(s, a, parent);
      if s.pid == me {
        PanicsOnlyAtSwap(s, a, me);
      } else {
        SwapPanics(s, a, c, parent, me);
      }
    }
  }

  /**
     Whatever interleaves, in a child: the "counter equals to zero" panic fires if and only if the
     inherited count is zero and an `increase` is the first to swap the pid.
   */
  lemma IncreasePanicsIff(c: int, parent: int, me: int, states: seq<State>, acts: seq<Action>, i: nat)
    requires parent != me && IsRun(c, parent, me, states, acts) && i < |states|
    ensures (exists t :: Panicked(states[i], t)) <==> c == 0 && ResetBegun(states, acts, i, parent)
  {
    PanicRun(c, parent, me, states, acts, i);
  }

  // ----- A child that only clones -------------------------------------------------------------

  predicate OnlyIncreases(s: State) {
    forall t :: t in s.threads ==> s.threads[t].IncLoad? || s.threads[t].IncSwap? || s.threads[t].IncAdd?
                                   || s.threads[t].IncSub? || s.threads[t].IncPanic? || s.threads[t].Increased?
  }

  lemma {:induction false} OnlyIncreasesInRun(c: int, parent: int, me: int,
                                              states: seq<State>, acts: seq<Action>, i: nat)
    requires IsRun(c, parent, me, states, acts) && i < |states|
    requires forall k :: 0 <= k < |acts| ==> !acts[k].Decrease?
    ensures OnlyIncreases(states[i])
  {
    if i > 0 {
      OnlyIncreasesInRun(c, parent, me, states, acts, i - 1);
    }
  }

  /**
     In a fresh child with an inherited count c >= 1, however the steps of the `increase` calls
     interleave: the counter never falls below one, the "counter equals to zero" panic never fires,
     and when all k >= 1 calls are over the counter is exactly k.
   */
  lemma ForkResetIsInterleavingIndependent(c: int, parent: int, me: int, states: seq<State>, acts: seq<Action>, i: nat)
    requires c >= 1 && parent != me
    requires IsRun(c, parent, me, states, acts) && i < |states|
    requires forall k :: 0 <= k < |acts| ==> !acts[k].Decrease?
    ensures states[i].counter >= 1
    ensures forall t :: t in states[i].threads ==> states[i].threads[t] != IncPanic
    ensures Settled(states[i]) ==> states[i].counter == |states[i].threads|
  {
    var s := states[i];
    ForkRun(c, parent, me, states, acts, i);
    OnlyIncreasesInRun(c, parent, me, states, acts, i);
    assert DecreasedSet(s) == {} && !Forestalled(s);
    if Settled(s) {
      ForkResetIff(c, parent, me, states, acts, i);
      assert IncreasedSet(s) == s.threads.Keys;
    }
  }

  ghost predicate Reaches(c: int, parent: int, me: int, s: State) {
    exists states: seq<State>, acts: seq<Action> :: IsRun(c, parent, me, states, acts) && states[|acts|] == s
  }

  lemma Go(c: int, parent: int, me: int, s: State, a: Action)
    requires Reaches(c, parent, me, s) && Can(s, a)
    ensures Reaches(c, parent, me, Do(s, a, me))
  {
    var states: seq<State>, acts: seq<Action> :| IsRun(c, parent, me, states, acts) && states[|acts|] == s;
    var states', acts' := states + [Do(s, a, me)], acts + [a];
    assert IsRun(c, parent, me, states', acts') && states'[|acts'|] == Do(s, a, me);
  }

  /**
     The other case does occur for this component alone: a `decrease` comes first in the child, claims
     to be the last one and forestalls the reset. The drop of a channel never gets there, because it
     returns before `decrease` in every process but the one that created the channel.
   */
  lemma DecreaseFirstForestallsReset(c: int, parent: int, me: int)
    requires parent != me
    ensures Reaches(c, parent, me, State(c + 1, me, map[0 := LastOne(false), 1 := Increased]))
  {
    var s0 := State(c, parent, map[]);
    assert IsRun(c, parent, me, [s0], []);
    Go(c, parent, me, s0, Decrease(0));
    var s1 := State(c, parent, map[0 := DecSwap]);
    Go(c, parent, me, s1, Step(0));
    var s2 := State(c, me, map[0 := LastOne(false)]);
    Go(c, parent, me, s2, Increase(1));
    var s3 := State(c, me, map[0 := LastOne(false), 1 := IncLoad]);
    assert Do(s2, Increase(1), me) == s3;
    Go(c, parent, me, s3, Step(1));
    var s4 := State(c, me, map[0 := LastOne(false), 1 := IncSwap(c)]);
    assert Do(s3, Step(1), me) == s4;
    Go(c, parent, me, s4, Step(1));
    var s5 := State(c, me, map[0 := LastOne(false), 1 := IncAdd]);
    assert Do(s4, Step(1), me) == s5;
    Go(c, parent, me, s5, Step(1));
    assert Do(s5, Step(1), me) == State(c + 1, me, map[0 := LastOne(false), 1 := Increased]);
  }
}
