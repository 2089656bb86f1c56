/** Reference counter, sender and receiver counts, and the one drop that destroys the channel. */
module ChannelLifetimes {
  import opened Wrappers
  import opened FiniteSets
  import opened Channel
  import opened ChannelSafety

  /** Registered in `senders` or `receivers`: from the `fetch_add` to the successful exchange. */
  predicate IsCounted(h: Handle, kind: Kind) {
    h.kind == kind && (h.phase == Live || h.phase == Counting || h.phase.Swapping?)
  }

  /** A `Channel` value that the reference counter stands for. */
  predicate HoldsRef(h: Handle) {
    h.home && (h.phase == Joining || h.phase == Live || h.phase == Counting || h.phase.Swapping?
               || h.phase == Waking || h.phase == Releasing)
  }

  /** Took the destruction path. */
  predicate IsCloser(h: Handle) {
    IsDestruction(h.phase) || h.phase == Destroyed
  }

  ghost function CountedSet(s: State, kind: Kind): set<HandleId> {
    set h | h in s.handles && IsCounted(s.handles[h], kind)
  }

  ghost function RefSet(s: State): set<HandleId> {
    set h | h in s.handles && HoldsRef(s.handles[h])
  }

  ghost predicate AllHome(s: State) {
    forall h :: h in s.handles ==> s.handles[h].home
  }

  /** A clone in the making borrows a live value of the same process. */
  ghost predicate CloneOk(s: State, h: Handle) {
    h.home && (h.phase == Cloning || h.phase == Joining) ==>
      h.source in s.handles && s.handles[h.source].home && s.handles[h.source].phase == Live
  }

  /** A running call borrows a live sender or receiver. */
  ghost predicate BorrowOk(s: State, call: Call) {
    !call.pc.Done? ==>
      call.handle in s.handles && s.handles[call.handle].phase == Live
      && s.handles[call.handle].kind == KindFor(call.op)
  }

  ghost predicate PhaseOk(h: Handle) {
    && (IsCloser(h) ==> h.home)
    && (h.phase == Joining || h.phase == Counting || h.phase.Swapping? || h.phase == Waking ==> h.kind != Plain)
    && (h.phase.Swapping? ==> h.phase.seen > 0)
  }

  ghost predicate BorrowsOk(s: State) {
    && (forall h :: h in s.handles ==> PhaseOk(s.handles[h]) && CloneOk(s, s.handles[h]))
    && (forall c :: c in s.calls ==> BorrowOk(s, s.calls[c]))
  }

  /** The counter equals the live values, and reaches zero exactly when one drop goes on to destroy. */
  ghost predicate RefsOk(s: State) {
    && s.refs == |RefSet(s)|
    && (forall g, h :: g in s.handles && h in s.handles && IsCloser(s.handles[g]) && IsCloser(s.handles[h]) ==> g == h)
    && (forall h :: h in s.handles && IsCloser(s.handles[h]) ==> s.refs == 0)
    && (s.refs == 0 ==> exists h :: h in s.handles && IsCloser(s.handles[h]))
    && (forall h :: h in s.handles && IsCloser(s.handles[h]) ==> (s.dropping <==> s.handles[h].phase != StoreDropping))
    && (s.dropping ==> s.refs == 0)
  }

  /** As long as nothing is being destroyed, or no other process takes part, the counts are exact. */
  ghost predicate CountsOk(s: State) {
    !s.dropping || AllHome(s) ==>
      s.senders == |CountedSet(s, OfSender)| && s.receivers == |CountedSet(s, OfReceiver)|
  }

  ghost predicate Lifetimes(s: State) {
    BorrowsOk(s) && RefsOk(s) && CountsOk(s)
  }

  lemma LifetimesInit(capacity: nat)
    ensures Lifetimes(Init(capacity))
  {
    var s := Init(capacity);
    assert RefSet(s) == {0};
    assert CountedSet(s, OfSender) == {} && CountedSet(s, OfReceiver) == {};
  }

  // ----- Steps of calls -----------------------------------------------------------------------

  ghost predicate HandlesKept(s: State, s': State) {
    && s'.handles == s.handles && s'.refs == s.refs && s'.senders == s.senders
    && s'.receivers == s.receivers && s'.dropping == s.dropping && s'.freed == s.freed
  }

  /** A running call goes on with its operation on its handle, and touches no handle. */
  ghost predicate GoesOn(s: State, s': State, c: CallId) {
    && HandlesKept(s, s')
    && c in s.calls && !s.calls[c].pc.Done?
    && c in s'.calls && s'.calls[c] == s.calls[c].(pc := s'.calls[c].pc)
  }

  ghost predicate GoesAlone(s: State, s': State, c: CallId) {
    GoesOn(s, s', c) && s'.calls == s.calls[c := s'.calls[c]]
  }

  lemma LockerGoesOn(s: State, a: Action)
    requires (a.Lock? || a.LockFails? || a.Reacquire?) && CanCall(s, a)
    ensures GoesAlone(s, DoCall(s, a), a.c)
  {
  }

  lemma SleeperGoesOn(s: State, a: Action)
    requires (a.Sleep? || a.Wake? || a.Expire?) && CanCall(s, a)
    ensures GoesAlone(s, DoCall(s, a), a.c)
  {
  }

  lemma ReleaseGoesOn(s: State, c: CallId)
    requires CanCall(s, Release(c))
    ensures GoesAlone(s, DoCall(s, Release(c)), c)
  {
  }

  lemma SignalGoesOn(s: State, a: Action)
    requires a.Signal? && CanCall(s, a)
    ensures GoesOn(s, DoCall(s, a), a.c)
  {
  }

  lemma ReaderGoesOn(s: State, c: CallId)
    requires CanCall(s, Read(c))
    ensures GoesAlone(s, DoCall(s, Read(c)), c)
  {
  }

  lemma TransferGoesOn(s: State, a: Action)
    requires (a.PushOrPop? || a.Grow? || a.GrowFails?) && CanCall(s, a)
    ensures GoesAlone(s, DoCall(s, a), a.c)
  {
  }

  lemma CallStepKeepsHandles(s: State, a: Action)
    requires IsCallAction(a) && CanCall(s, a)
    ensures var s' := DoCall(s, a);
            && HandlesKept(s, s')
            && a.c in s'.calls
            && (if a.Start? then BorrowOk(s, s'.calls[a.c]) else GoesOn(s, s', a.c))
            && (a.Signal? || s'.calls == s.calls[a.c := s'.calls[a.c]])
  {
    if a.Lock? || a.LockFails? || a.Reacquire? {
      LockerGoesOn(s, a);
    } else if a.Sleep? || a.Wake? || a.Expire? {
      SleeperGoesOn(s, a);
    } else if a.Signal? {
      SignalGoesOn(s, a);
    } else if a.Release? {
      ReleaseGoesOn(s, a.c);
    } else if a.Read? {
      ReaderGoesOn(s, a.c);
    } else if !a.Start? {
      TransferGoesOn(s, a);
    }
  }

  lemma CallStepLifetimes(s: State, a: Action)
    requires Basic(s) && Lifetimes(s) && Can(s, a) && IsCallAction(a)
    ensures Lifetimes(Do(s, a))
  {
    CallStepKeepsHandles(s, a);
    CallStepOk(s, a);
    assert a.c in s.calls ==> BorrowOk(s, s.calls[a.c]);
    CallFrame(s, Do(s, a), a.c);
  }

  lemma CallFrame(s: State, s': State, c: CallId)
    requires Lifetimes(s) && HandlesKept(s, s') && OneMoved(s, s', c) && BorrowOk(s, s'.calls[c])
    ensures Lifetimes(s')
  {
    forall d | d in s'.calls ensures BorrowOk(s', s'.calls[d]) {
      if d != c {
        assert Undisturbed(s.calls[d], s'.calls[d]) && BorrowOk(s, s.calls[d]);
      }
    }
    assert RefSet(s') == RefSet(s);
    assert CountedSet(s', OfSender) == CountedSet(s, OfSender);
    assert CountedSet(s', OfReceiver) == CountedSet(s, OfReceiver);
  }

  // ----- Steps of handles ---------------------------------------------------------------------

  lemma SetsAfterStep(s: State, s': State, h: HandleId)
    requires h in s'.handles && s'.handles == s.handles[h := s'.handles[h]]
    ensures RefSet(s') == With(RefSet(s), h, HoldsRef(s'.handles[h]))
    ensures forall kind :: CountedSet(s', kind) == With(CountedSet(s, kind), h, IsCounted(s'.handles[h], kind))
  {
    forall kind ensures CountedSet(s', kind) == With(CountedSet(s, kind), h, IsCounted(s'.handles[h], kind)) {
    }
  }

  /** Only `h` has changed among the handles, and of an existing one only the phase. */
  ghost predicate OneMovedHandle(s: State, s': State, h: HandleId) {
    && h in s'.handles && s'.handles == s.handles[h := s'.handles[h]]
    && (h in s.handles ==> s'.handles[h] == s.handles[h].(phase := s'.handles[h].phase))
  }

  lemma OneHandleMakes(s: State, a: Action)
    requires IsMaking(a) && CanHandle(s, a)
    ensures OneMovedHandle(s, DoMake(s, a), a.h)
  {
  }

  lemma OneHandleWindsDown(s: State, a: Action)
    requires IsWindDown(a) && !a.Destroy? && CanHandle(s, a)
    ensures OneMovedHandle(s, DoWindDown(s, a), a.h)
  {
  }

  lemma OneHandleDestroys(s: State, h: HandleId)
    requires h in s.handles && IsDestruction(s.handles[h].phase)
    ensures OneMovedHandle(s, DoDestroy(s, h), h)
  {
  }

  lemma OneHandleMoves(s: State, a: Action)
    requires Can(s, a) && !IsCallAction(a)
    ensures OneMovedHandle(s, Do(s, a), a.h)
  {
    if IsMaking(a) {
      OneHandleMakes(s, a);
    } else if a.Destroy? {
      OneHandleDestroys(s, a.h);
    } else {
      OneHandleWindsDown(s, a);
    }
  }

  lemma BorrowFrame(s: State, s': State, h: HandleId)
    requires BorrowsOk(s) && CallsKept(s, s')
    requires h in s'.handles && s'.handles == s.handles[h := s'.handles[h]]
    requires PhaseOk(s'.handles[h]) && CloneOk(s', s'.handles[h])
    requires h in s.handles ==> s'.handles[h] == s.handles[h].(phase := s'.handles[h].phase)
    requires h in s.handles && s.handles[h].phase == Live ==> !Borrowed(s, h)
    ensures BorrowsOk(s')
  {
    forall g | g in s'.handles ensures PhaseOk(s'.handles[g]) && CloneOk(s', s'.handles[g]) {
      if g != h {
        assert PhaseOk(s.handles[g]) && CloneOk(s, s.handles[g]);
      }
    }
    forall c | c in s'.calls ensures BorrowOk(s', s'.calls[c]) {
      assert Undisturbed(s.calls[c], s'.calls[c]) && BorrowOk(s, s.calls[c]);
    }
  }

  /** The steps of a dropped value between its last use and its release, and of the destruction. */
  predicate IsWindDown(a: Action) {
    a.LoadCount? || a.SwapOk? || a.SwapFails? || a.Broadcast? || a.DropRef? || a.Destroy?
  }

  lemma MakingPhase(s: State, a: Action)
    requires IsMaking(a) && CanHandle(s, a)
    requires a.h in s.handles ==> PhaseOk(s.handles[a.h])
    ensures var h' := DoMake(s, a).handles[a.h];
            PhaseOk(h') && (a.Drop? ==> h'.phase != Cloning && h'.phase != Joining)
  {
  }

  lemma LoopPhase(s: State, a: Action)
    requires (a.LoadCount? || a.SwapOk? || a.SwapFails?) && CanHandle(s, a)
    requires PhaseOk(s.handles[a.h])
    ensures var h' := DoWindDown(s, a).handles[a.h];
            PhaseOk(h') && h'.phase != Cloning && h'.phase != Joining
  {
  }

  lemma BroadcastMoves(s: State, h: HandleId)
    requires h in s.handles && s.handles[h].phase == Waking
    ensures var s' := DoWindDown(s, Broadcast(h));
            && s'.handles[h] == s.handles[h].(phase := Releasing)
            && s'.senders == s.senders && s'.receivers == s.receivers
            && s'.refs == s.refs && s'.dropping == s.dropping
  {
  }

  lemma ReleaseMoves(s: State, h: HandleId)
    requires h in s.handles && s.handles[h].phase == Releasing
    ensures var s' := DoWindDown(s, DropRef(h));
            && s'.handles[h] == s.handles[h].(phase := if s.handles[h].home && s.refs == 1 then StoreDropping else Gone)
            && s'.senders == s.senders && s'.receivers == s.receivers
            && s'.refs == (if s.handles[h].home then s.refs - 1 else s.refs) && s'.dropping == s.dropping
  {
  }

  lemma DestructionPhase(s: State, h: HandleId)
    requires h in s.handles && IsDestruction(s.handles[h].phase)
    requires PhaseOk(s.handles[h])
    ensures PhaseOk(DoDestroy(s, h).handles[h]) && IsCloser(DoDestroy(s, h).handles[h])
  {
    OneHandleDestroys(s, h);
    StaysCloser(s, h);
  }

  lemma StaysCloser(s: State, h: HandleId)
    requires h in s.handles && IsDestruction(s.handles[h].phase)
    ensures IsCloser(DoDestroy(s, h).handles[h])
  {
  }

  lemma PhaseStep(s: State, a: Action)
    requires BorrowsOk(s) && !IsCallAction(a) && CanHandle(s, a) && OneMovedHandle(s, DoHandle(s, a), a.h)
    ensures var h' := DoHandle(s, a).handles[a.h];
            && PhaseOk(h')
            && (IsWindDown(a) || a.Drop? ==> h'.phase != Cloning && h'.phase != Joining)
  {
    assert a.h in s.handles ==> PhaseOk(s.handles[a.h]);
    if a.Destroy? {
      DestructionPhase(s, a.h);
    } else if a.Broadcast? {
      BroadcastMoves(s, a.h);
    } else if a.DropRef? {
      ReleaseMoves(s, a.h);
    } else if IsWindDown(a) {
      LoopPhase(s, a);
    } else {
      MakingPhase(s, a);
    }
  }

  lemma OnlyDropEndsLife(s: State, a: Action)
    requires !IsCallAction(a) && CanHandle(s, a)
    requires a.h in s.handles && s.handles[a.h].phase == Live
    ensures a.Drop? && !Borrowed(s, a.h)
  {
  }

  lemma SourceStays(s: State, s': State, h: HandleId)
    requires h in s'.handles && s'.handles == s.handles[h := s'.handles[h]]
    requires h !in s.handles || s.handles[h].phase != Live
    requires CloneOk(s, s'.handles[h])
    ensures CloneOk(s', s'.handles[h])
  {
  }

  lemma HandleStepBorrows(s: State, a: Action)
    requires BorrowsOk(s) && Can(s, a) && !IsCallAction(a)
    ensures BorrowsOk(Do(s, a))
  {
    var s' := Do(s, a);
    OneHandleMoves(s, a);
    HandleStepKeepsCalls(s, a);
    PhaseStep(s, a);
    if a.h in s.handles && s.handles[a.h].phase == Live {
      OnlyDropEndsLife(s, a);
    }
    if a.Clone? || a.AddRef? || a.AddPeer? {
      assert a.h in s.handles ==> CloneOk(s, s.handles[a.h]);
      SourceStays(s, s', a.h);
    }
    BorrowFrame(s, s', a.h);
  }

  // ----- The reference counter ----------------------------------------------------------------

  lemma RefsFrame(s: State, s': State, h: HandleId)
    requires RefsOk(s)
    requires h in s'.handles && s'.handles == s.handles[h := s'.handles[h]]
    requires !IsCloser(s'.handles[h]) && (h in s.handles ==> !IsCloser(s.handles[h]))
    requires s'.dropping == s.dropping
    requires var was := h in s.handles && HoldsRef(s.handles[h]);
             s'.refs - s.refs == (if HoldsRef(s'.handles[h]) then 1 else 0) - (if was then 1 else 0)
    requires s.refs == 0 ==> s'.refs == 0
    requires s'.refs == 0 ==> s.refs == 0
    ensures RefsOk(s')
  {
    SetsAfterStep(s, s', h);
    WithSize(RefSet(s), h, HoldsRef(s'.handles[h]));
    assert forall g :: g in s'.handles && IsCloser(s'.handles[g]) ==> g != h && s'.handles[g] == s.handles[g];
    if s'.refs == 0 {
      var g :| g in s.handles && IsCloser(s.handles[g]);
      assert g in s'.handles && s'.handles[g] == s.handles[g];
    }
  }

  lemma SomeRefMeansPositive(s: State, h: HandleId)
    requires RefsOk(s) && h in s.handles && HoldsRef(s.handles[h])
    ensures s.refs > 0
  {
    assert h in RefSet(s);
  }

  /** What an ordinary step does to the counter and to the value's own part in it. */
  ghost predicate RefMove(s: State, s': State, h: HandleId) {
    && h in s'.handles && !IsCloser(s'.handles[h]) && (h in s.handles ==> !IsCloser(s.handles[h]))
    && s'.dropping == s.dropping
    && var was := h in s.handles && HoldsRef(s.handles[h]);
       s'.refs - s.refs == (if HoldsRef(s'.handles[h]) then 1 else 0) - (if was then 1 else 0)
  }

  lemma MakingRefs(s: State, a: Action)
    requires IsMaking(a) && CanHandle(s, a)
    requires a.h in s.handles ==> PhaseOk(s.handles[a.h])
    ensures RefMove(s, DoMake(s, a), a.h)
    ensures DoMake(s, a).refs == if a.AddRef? && s.handles[a.h].home then s.refs + 1 else s.refs
  {
  }

  lemma WindDownRefs(s: State, a: Action)
    requires IsWindDown(a) && !a.Destroy? && CanHandle(s, a)
    requires !(a.DropRef? && s.handles[a.h].home && s.refs == 1)
    requires PhaseOk(s.handles[a.h])
    ensures RefMove(s, DoWindDown(s, a), a.h)
    ensures DoWindDown(s, a).refs == if a.DropRef? && s.handles[a.h].home then s.refs - 1 else s.refs
  {
    if a.Broadcast? {
      BroadcastMoves(s, a.h);
    } else if a.DropRef? {
      ReleaseMoves(s, a.h);
    } else {
      LoopRefs(s, a);
    }
  }

  lemma LoopRefs(s: State, a: Action)
    requires (a.LoadCount? || a.SwapOk? || a.SwapFails?) && CanHandle(s, a)
    requires PhaseOk(s.handles[a.h])
    ensures RefMove(s, DoWindDown(s, a), a.h) && DoWindDown(s, a).refs == s.refs
  {
  }

  lemma OrdinaryStepRefs(s: State, a: Action)
    requires BorrowsOk(s) && RefsOk(s) && Can(s, a) && !IsCallAction(a) && !a.Destroy?
    requires !(a.DropRef? && s.handles[a.h].home && s.refs == 1)
    ensures RefsOk(Do(s, a))
  {
    var s' := Do(s, a);
    OneHandleMoves(s, a);
    assert a.h in s.handles ==> PhaseOk(s.handles[a.h]) && CloneOk(s, s.handles[a.h]);
    if IsWindDown(a) {
      WindDownRefs(s, a);
      if a.DropRef? && s.handles[a.h].home {
        SomeRefMeansPositive(s, a.h);
      }
    } else {
      MakingRefs(s, a);
      if a.AddRef? && s.handles[a.h].home {
        SomeRefMeansPositive(s, s.handles[a.h].source);
      }
    }
    RefsFrame(s, s', a.h);
  }

  lemma LastStepRefs(s: State, h: HandleId)
    requires BorrowsOk(s) && RefsOk(s) && Can(s, DropRef(h)) && s.handles[h].home && s.refs == 1
    ensures RefsOk(Do(s, DropRef(h)))
  {
    var s' := Do(s, DropRef(h));
    SetsAfterStep(s, s', h);
    assert h in RefSet(s);
    assert forall g :: g in s.handles ==> !IsCloser(s.handles[g]);
    assert forall g :: g in s'.handles && g != h ==> !IsCloser(s'.handles[g]);
    assert IsCloser(s'.handles[h]);
  }

  lemma CloserFrame(s: State, s': State, h: HandleId)
    requires RefsOk(s) && OneMovedHandle(s, s', h)
    requires h in s.handles && IsCloser(s.handles[h]) && IsCloser(s'.handles[h])
    requires s'.refs == s.refs && (s'.dropping <==> s'.handles[h].phase != StoreDropping)
    ensures RefsOk(s')
  {
    SetsAfterStep(s, s', h);
    assert RefSet(s') == RefSet(s);
    assert forall g :: g in s'.handles && g != h ==> !IsCloser(s'.handles[g]);
  }

  lemma DestructionProgress(s: State, h: HandleId)
    requires RefsOk(s) && h in s.handles && IsDestruction(s.handles[h].phase)
    ensures var s' := DoDestroy(s, h);
            IsCloser(s'.handles[h]) && s'.handles[h].phase != StoreDropping && s'.dropping && s'.refs == s.refs
  {
    assert IsCloser(s.handles[h]);
  }

  lemma DestructionStepRefs(s: State, h: HandleId)
    requires RefsOk(s) && h in s.handles && IsDestruction(s.handles[h].phase)
    ensures RefsOk(DoDestroy(s, h))
  {
    OneHandleDestroys(s, h);
    DestructionProgress(s, h);
    CloserFrame(s, DoDestroy(s, h), h);
  }

  lemma HandleStepRefs(s: State, a: Action)
    requires BorrowsOk(s) && RefsOk(s) && Can(s, a) && !IsCallAction(a)
    ensures RefsOk(Do(s, a))
  {
    if a.Destroy? {
      DestructionStepRefs(s, a.h);
    } else if a.DropRef? && s.handles[a.h].home && s.refs == 1 {
      LastStepRefs(s, a.h);
    } else {
      OrdinaryStepRefs(s, a);
    }
  }

  /** The destruction is never called off. */
  lemma DroppingStep(s: State, a: Action)
    requires Can(s, a) && s.dropping
    ensures Do(s, a).dropping
  {
    if IsCallAction(a) {
      CallStepKeepsHandles(s, a);
    } else {
      HandleStepKeepsCalls(s, a);
    }
  }

  // ----- The counts ---------------------------------------------------------------------------

  /** The value's own part in the count, before and after, is what the count changes by. */
  ghost predicate CountMove(s: State, s': State, h: HandleId, kind: Kind) {
    && h in s'.handles
    && var was := h in s.handles && IsCounted(s.handles[h], kind);
       Count(s', kind) - Count(s, kind) == (if IsCounted(s'.handles[h], kind) then 1 else 0) - (if was then 1 else 0)
  }

  lemma CountsFrame(s: State, s': State, h: HandleId, kind: Kind)
    requires h in s'.handles && s'.handles == s.handles[h := s'.handles[h]]
    requires Count(s, kind) == |CountedSet(s, kind)|
    requires CountMove(s, s', h, kind)
    ensures Count(s', kind) == |CountedSet(s', kind)|
  {
    SetsAfterStep(s, s', h);
  }

  /** A registered value keeps its count above zero. */
  lemma RegisteredMeansPositive(s: State, h: HandleId, kind: Kind)
    requires Count(s, kind) == |CountedSet(s, kind)|
    requires h in s.handles && IsCounted(s.handles[h], kind)
    ensures Count(s, kind) > 0
  {
    assert h in CountedSet(s, kind);
  }

  lemma MakingCounts(s: State, a: Action, kind: Kind)
    requires IsMaking(a) && CanHandle(s, a) && kind != Plain
    requires a.h in s.handles ==> PhaseOk(s.handles[a.h])
    ensures CountMove(s, DoMake(s, a), a.h, kind)
  {
  }

  lemma LoopCounts(s: State, a: Action, kind: Kind)
    requires (a.LoadCount? || a.SwapOk? || a.SwapFails?) && CanHandle(s, a) && kind != Plain
    requires PhaseOk(s.handles[a.h])
    requires IsCounted(s.handles[a.h], kind) ==> Count(s, kind) > 0
    ensures CountMove(s, DoWindDown(s, a), a.h, kind)
  {
  }

  lemma OrdinaryStepCounts(s: State, a: Action, kind: Kind)
    requires BorrowsOk(s) && kind != Plain && Count(s, kind) == |CountedSet(s, kind)|
    requires Can(s, a) && !IsCallAction(a) && !a.Destroy?
    ensures Count(Do(s, a), kind) == |CountedSet(Do(s, a), kind)|
  {
    OneHandleMoves(s, a);
    assert a.h in s.handles ==> PhaseOk(s.handles[a.h]);
    if IsMaking(a) {
      MakingCounts(s, a, kind);
    } else if a.Broadcast? {
      BroadcastMoves(s, a.h);
    } else if a.DropRef? {
      ReleaseMoves(s, a.h);
    } else {
      if IsCounted(s.handles[a.h], kind) {
        RegisteredMeansPositive(s, a.h, kind);
      }
      LoopCounts(s, a, kind);
    }
    CountsFrame(s, Do(s, a), a.h, kind);
  }

  /** With every value at home, nothing is registered any more once the destruction has begun. */
  lemma NoneRegistered(s: State, kind: Kind)
    requires RefsOk(s) && AllHome(s) && s.refs == 0
    ensures CountedSet(s, kind) == {}
  {
    assert RefSet(s) == {};
    forall h | h in s.handles ensures !IsCounted(s.handles[h], kind) {
      assert h !in RefSet(s);
    }
  }

  lemma DestructionStepCounts(s: State, h: HandleId)
    requires RefsOk(s) && h in s.handles && IsDestruction(s.handles[h].phase)
    requires AllHome(s) && AllHome(DoDestroy(s, h))
    requires s.senders == |CountedSet(s, OfSender)| && s.receivers == |CountedSet(s, OfReceiver)|
    ensures CountsOk(DoDestroy(s, h))
  {
    DestructionProgress(s, h);
    DestructionStepRefs(s, h);
    assert IsCloser(s.handles[h]) && s.refs == 0;
    NoneRegistered(s, OfSender);
    NoneRegistered(s, OfReceiver);
    NoneRegistered(DoDestroy(s, h), OfSender);
    NoneRegistered(DoDestroy(s, h), OfReceiver);
    CountsOnlyZeroed(s, h);
  }

  lemma CountsOnlyZeroed(s: State, h: HandleId)
    requires h in s.handles && IsDestruction(s.handles[h].phase)
    ensures DoDestroy(s, h).senders <= s.senders && DoDestroy(s, h).receivers <= s.receivers
  {
  }

  lemma HandleStepCounts(s: State, a: Action)
    requires BorrowsOk(s) && RefsOk(s) && CountsOk(s) && Can(s, a) && !IsCallAction(a)
    ensures CountsOk(Do(s, a))
  {
    var s' := Do(s, a);
    OneHandleMoves(s, a);
    if !s'.dropping || AllHome(s') {
      assert AllHome(s') ==> AllHome(s) by {
        assert forall h :: h in s.handles ==> s.handles[h].home == s'.handles[h].home;
      }
      HandleStepKeepsCalls(s, a);
      assert Count(s, OfSender) == |CountedSet(s, OfSender)| && Count(s, OfReceiver) == |CountedSet(s, OfReceiver)|;
      if a.Destroy? {
        DestructionStepCounts(s, a.h);
      } else {
        OrdinaryStepCounts(s, a, OfSender);
        OrdinaryStepCounts(s, a, OfReceiver);
      }
    }
  }

  lemma LifetimesStep(s: State, a: Action)
    requires Basic(s) && Lifetimes(s) && Can(s, a)
    ensures Lifetimes(Do(s, a))
  {
    if IsCallAction(a) {
      CallStepLifetimes(s, a);
    } else {
      HandleStepBorrows(s, a);
      HandleStepRefs(s, a);
      HandleStepCounts(s, a);
    }
  }

  // ----- Whole runs ---------------------------------------------------------------------------

  lemma RunKeepsLifetimes(capacity: nat, states: seq<State>, acts: seq<Action>, i: nat)
    requires IsRun(capacity, states, acts) && i < |states|
    ensures Basic(states[i]) && Lifetimes(states[i])
  {
    LifetimesInit(capacity);
    forall m | 0 <= m < i && Lifetimes(states[m]) ensures Lifetimes(states[m + 1]) {
      RunKeepsBasic(capacity, states, acts, m);
      assert Step(states[m], acts[m], states[m + 1]);
      LifetimesStep(states[m], acts[m]);
    }
    KeptAlong(states, 0, i, s => Lifetimes(s));
    RunKeepsBasic(capacity, states, acts, i);
  }

  lemma DroppingIsKept(states: seq<State>, acts: seq<Action>, i: nat, j: nat)
    requires IsPath(states, acts) && i <= j < |states| && states[i].dropping
    ensures states[j].dropping
  {
    forall m | i <= m < j && states[m].dropping ensures states[m + 1].dropping {
      assert Step(states[m], acts[m], states[m + 1]);
      DroppingStep(states[m], acts[m]);
    }
    KeptAlong(states, i, j, (s: State) => s.dropping);
  }

  /** The reference counter is the number of live `Channel` values; the counts are those registered. */
  lemma CountersAreExact(capacity: nat, states: seq<State>, acts: seq<Action>, i: nat)
    requires IsRun(capacity, states, acts) && i < |states|
    ensures states[i].refs == |RefSet(states[i])|
    ensures !states[i].dropping || AllHome(states[i]) ==>
              && states[i].senders == |CountedSet(states[i], OfSender)|
              && states[i].receivers == |CountedSet(states[i], OfReceiver)|
  {
    RunKeepsLifetimes(capacity, states, acts, i);
  }

  predicate HasClosed(s: State, h: HandleId) {
    h in s.handles && IsCloser(s.handles[h])
  }

  lemma CloserStep(s: State, a: Action, h: HandleId)
    requires Can(s, a) && HasClosed(s, h) && PhaseOk(s.handles[h])
    ensures HasClosed(Do(s, a), h)
  {
    if IsCallAction(a) {
      CallStepKeepsHandles(s, a);
    } else {
      OneHandleMoves(s, a);
      if a.h == h && a.Destroy? {
        DestructionPhase(s, h);
      }
    }
  }

  lemma CloserStays(capacity: nat, states: seq<State>, acts: seq<Action>, i: nat, j: nat, h: HandleId)
    requires IsRun(capacity, states, acts) && i <= j < |states|
    requires HasClosed(states[i], h)
    ensures HasClosed(states[j], h)
  {
    forall m | i <= m < j && HasClosed(states[m], h) ensures HasClosed(states[m + 1], h) {
      RunKeepsLifetimes(capacity, states, acts, m);
      assert PhaseOk(states[m].handles[h]);
      assert Step(states[m], acts[m], states[m + 1]);
      CloserStep(states[m], acts[m], h);
    }
    KeptAlong(states, i, j, s => HasClosed(s, h));
  }

  /** At most one drop in a whole run takes the destruction path ... */
  lemma OnlyOneDestruction(capacity: nat, states: seq<State>, acts: seq<Action>,
                           i: nat, g: HandleId, j: nat, h: HandleId)
    requires IsRun(capacity, states, acts) && i <= j < |states|
    requires HasClosed(states[i], g) && HasClosed(states[j], h)
    ensures g == h
  {
    CloserStays(capacity, states, acts, i, j, g);
    RunKeepsLifetimes(capacity, states, acts, j);
  }

  /** ... and one does, exactly when no value of the creating process is left. */
  lemma DestructionIffLastReleased(capacity: nat, states: seq<State>, acts: seq<Action>, i: nat)
    requires IsRun(capacity, states, acts) && i < |states|
    ensures (exists h :: HasClosed(states[i], h))
            <==> (forall h :: h in states[i].handles ==> !HoldsRef(states[i].handles[h]))
  {
    RunKeepsLifetimes(capacity, states, acts, i);
    var s := states[i];
    assert s.refs == 0 <==> RefSet(s) == {};
    assert forall h :: h in RefSet(s) <==> h in s.handles && HoldsRef(s.handles[h]);
    if s.refs == 0 {
      var h :| h in s.handles && IsCloser(s.handles[h]);
      assert HasClosed(s, h);
    }
  }

  /**
     When every value lives in one process, the drop that destroys finds the channel idle: no
     counts, the mutex free, every call finished, so nobody asleep, and all other values gone.
   */
  lemma LastDropFindsChannelIdle(capacity: nat, states: seq<State>, acts: seq<Action>, i: nat, h: HandleId)
    requires IsRun(capacity, states, acts) && i < |states|
    requires AllHome(states[i])
    requires h in states[i].handles && IsDestruction(states[i].handles[h].phase)
    ensures var s := states[i];
            && s.senders == 0 && s.receivers == 0 && s.refs == 0
            && s.owner == None
            && (forall c :: c in s.calls ==> s.calls[c].pc.Done?)
            && Sleepers(s, true) == {} && Sleepers(s, false) == {}
            && (forall g :: g in s.handles && g != h ==> s.handles[g].phase == Gone)
  {
    RunKeepsLifetimes(capacity, states, acts, i);
    var s := states[i];
    assert IsCloser(s.handles[h]) && s.refs == 0;
    NoneRegistered(s, OfSender);
    NoneRegistered(s, OfReceiver);
    assert RefSet(s) == {};
    assert forall g :: g in s.handles ==> g !in RefSet(s);
    forall g | g in s.handles && g != h ensures s.handles[g].phase == Gone {
      assert CloneOk(s, s.handles[g]);
      assert s.handles[g].phase != Live;
    }
    forall c | c in s.calls ensures s.calls[c].pc.Done? {
      assert BorrowOk(s, s.calls[c]);
    }
  }
}
