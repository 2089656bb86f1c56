/** When the queue stays within its capacity, when no `expect` fails, and when the end of the stream is final. */
module ChannelBounds {
  import opened Wrappers
  import opened Channel
  import opened ChannelSafety
  import opened ChannelLifetimes

  // ----- At the push, and at the pop ----------------------------------------------------------

  /** Call `c` reads, as the last disjunct of its wait, that it has no peers. */
  predicate SeesNone(s: State, a: Action, c: CallId) {
    a == Read(c) && c in s.calls && s.calls[c].pc.CheckPeers? && Peers(s, s.calls[c].op.Send?) == 0
  }

  /** Call `c` reads again after its wait, and there are peers. */
  predicate SeesSome(s: State, a: Action, c: CallId) {
    a == Read(c) && c in s.calls && s.calls[c].pc.RecheckPeers? && Peers(s, s.calls[c].op.Send?) > 0
  }

  ghost predicate HasSeenNone(states: seq<State>, acts: seq<Action>, i: nat, c: CallId)
    requires i <= |acts| && i <= |states|
  {
    exists m :: 0 <= m < i && SeesNone(states[m], acts[m], c)
  }

  /** Before step `i` the call's peers were gone at one reading and there again at a later one. */
  ghost predicate PeersReappeared(states: seq<State>, acts: seq<Action>, i: nat, c: CallId)
    requires i <= |acts| && i <= |states|
  {
    exists n :: 0 <= n < i && SeesSome(states[n], acts[n], c) && HasSeenNone(states, acts, n, c)
  }

  ghost predicate GivenUpWaiting(s: State, c: CallId) {
    c in s.calls && PassedBecause(s.calls[c].pc) == Some(PeersGone)
  }

  /** How a call comes to go on although its wait ended for lack of peers. */
  lemma GivingUpStep(s: State, a: Action, c: CallId)
    requires Basic(s) && Can(s, a) && GivenUpWaiting(Do(s, a), c)
    ensures c in s.calls && Do(s, a).calls[c].op == s.calls[c].op
    ensures var call, call' := s.calls[c], Do(s, a).calls[c];
            || call == call'
            || (SeesNone(s, a, c) && (call'.pc.RecheckPeers? || call.op == Receive(Forever)))
            || (SeesSome(s, a, c) && GivenUpWaiting(s, c))
            || (call.pc.RecheckClosing? && GivenUpWaiting(s, c))
  {
    OthersUndisturbed(s, a);
    if IsCallAction(a) && a.c == c {
      PassedStep(s, a);
      CallStepKeepsHandles(s, a);
      GivingUpRead(s, c);
    } else {
      assert Undisturbed(s.calls[c], Do(s, a).calls[c]);
    }
  }

  lemma GivingUpRead(s: State, c: CallId)
    requires Basic(s) && Can(s, Read(c)) && GivenUpWaiting(Do(s, Read(c)), c)
    ensures var call := s.calls[c]; var pc := AfterRead(s, call.op, call.pc);
            || (SeesNone(s, Read(c), c) && (pc.RecheckPeers? || call.op == Receive(Forever)))
            || (SeesSome(s, Read(c), c) && GivenUpWaiting(s, c))
            || (call.pc.RecheckClosing? && GivenUpWaiting(s, c))
  {
    assert LocalOk(s, s.calls[c].op, s.calls[c].pc);
    assert Do(s, Read(c)).calls[c].pc == AfterRead(s, s.calls[c].op, s.calls[c].pc);
  }

  lemma {:induction false} HistoryOfGivingUp(capacity: nat, states: seq<State>, acts: seq<Action>, i: nat, c: CallId)
    requires IsRun(capacity, states, acts) && i < |states| && GivenUpWaiting(states[i], c)
    ensures HasSeenNone(states, acts, i, c)
    ensures states[i].calls[c].pc.RecheckPeers? || states[i].calls[c].op == Receive(Forever)
            || PeersReappeared(states, acts, i, c)
  {
    if i > 0 {
      var s, a := states[i - 1], acts[i - 1];
      RunKeepsBasic(capacity, states, acts, i - 1);
      assert Step(s, a, states[i]);
      GivingUpStep(s, a, c);
      if GivenUpWaiting(s, c) {
        HistoryOfGivingUp(capacity, states, acts, i - 1, c);
      }
    }
  }

  function OutcomeOf(pc: Pc): Option<Outcome> {
    if pc.Notify? || pc.Unlock? || pc.Done? then Some(pc.outcome) else None
  }

  /** Has given up waiting for lack of peers, or has its answer already. */
  predicate PastWaiting(s: State, c: CallId) {
    c in s.calls && !s.calls[c].op.WaitForMessage? && s.calls[c].op.mode != Once
    && (PassedBecause(s.calls[c].pc) == Some(PeersGone) || OutcomeOf(s.calls[c].pc).Some?)
  }

  lemma SeeingNoneEndsWaiting(s: State, a: Action, c: CallId)
    requires Basic(s) && Can(s, a) && SeesNone(s, a, c)
    ensures PastWaiting(Do(s, a), c)
  {
    assert LocalOk(s, s.calls[c].op, s.calls[c].pc);
    assert Do(s, Read(c)).calls[c] == s.calls[c].(pc := AfterWait(s.calls[c].op, PeersGone));
  }

  lemma PastWaitingStays(s: State, a: Action, c: CallId)
    requires Basic(s) && Can(s, a) && PastWaiting(s, c)
    ensures PastWaiting(Do(s, a), c)
  {
    if IsCallAction(a) && a.c == c {
      assert !a.Start?;
      CallStepKeepsHandles(s, a);
      PastWaitingMoves(s, a);
    } else {
      OthersUndisturbed(s, a);
      PastWaitingFrame(s, Do(s, a), c);
    }
  }

  lemma PastWaitingFrame(s: State, s': State, c: CallId)
    requires PastWaiting(s, c) && c in s'.calls && Undisturbed(s.calls[c], s'.calls[c])
    ensures PastWaiting(s', c)
  {
  }

  lemma PastWaitingMoves(s: State, a: Action)
    requires Basic(s) && IsCallAction(a) && !a.Start? && CanCall(s, a) && PastWaiting(s, a.c)
    requires a.c in DoCall(s, a).calls
    ensures var pc := DoCall(s, a).calls[a.c].pc;
            PassedBecause(pc) == Some(PeersGone) || OutcomeOf(pc).Some?
  {
    if a.Read? {
      assert DoCall(s, a).calls[a.c].pc == AfterRead(s, s.calls[a.c].op, s.calls[a.c].pc);
    } else if a.PushOrPop? || a.Grow? || a.GrowFails? {
      ActingIsPastWaiting(s, a);
    }
  }

  lemma ActingIsPastWaiting(s: State, a: Action)
    requires (a.PushOrPop? || a.Grow? || a.GrowFails?) && CanCall(s, a) && PastWaiting(s, a.c)
    requires a.c in DoCall(s, a).calls
    ensures OutcomeOf(DoCall(s, a).calls[a.c].pc).Some?
  {
  }

  /** A call that has seen no peers and acts all the same, does so because it gave up waiting. */
  lemma SeenNoneMeansGone(capacity: nat, states: seq<State>, acts: seq<Action>, i: nat, c: CallId)
    requires IsRun(capacity, states, acts) && i < |states| && HasSeenNone(states, acts, i, c)
    ensures PastWaiting(states[i], c)
  {
    var m :| 0 <= m < i && SeesNone(states[m], acts[m], c);
    RunKeepsBasic(capacity, states, acts, m);
    assert Step(states[m], acts[m], states[m + 1]);
    SeeingNoneEndsWaiting(states[m], acts[m], c);
    forall n | m < n < i && PastWaiting(states[n], c) ensures PastWaiting(states[n + 1], c) {
      RunKeepsBasic(capacity, states, acts, n);
      assert Step(states[n], acts[n], states[n + 1]);
      PastWaitingStays(states[n], acts[n], c);
    }
    KeptAlong(states, m + 1, i, s => PastWaiting(s, c));
  }

  /** Acting for lack of peers means that there have been none, and are some. */
  lemma ActsWithoutPeersIff(capacity: nat, states: seq<State>, acts: seq<Action>, i: nat, c: CallId)
    requires IsRun(capacity, states, acts) && i < |states|
    requires c in states[i].calls && states[i].calls[c].pc.Act? && states[i].calls[c].op != Receive(Forever)
    ensures states[i].calls[c].pc.why == PeersGone <==> PeersReappeared(states, acts, i, c)
  {
    if states[i].calls[c].pc.why == PeersGone {
      HistoryOfGivingUp(capacity, states, acts, i, c);
    }
    if PeersReappeared(states, acts, i, c) {
      var n :| 0 <= n < i && SeesSome(states[n], acts[n], c) && HasSeenNone(states, acts, n, c);
      assert HasSeenNone(states, acts, i, c);
      SeenNoneMeansGone(capacity, states, acts, i, c);
    }
  }

  /** A send is about to push onto a full queue exactly if it once read no receivers, and later some. */
  lemma PushOntoFullIff(capacity: nat, states: seq<State>, acts: seq<Action>, i: nat, c: CallId)
    requires IsRun(capacity, states, acts) && i < |states|
    requires c in states[i].calls && states[i].calls[c].op.Send? && states[i].calls[c].pc.Act?
    ensures |states[i].queue| == states[i].room <==> PeersReappeared(states, acts, i, c)
    ensures states[i].calls[c].op.mode == Once ==> |states[i].queue| < states[i].room
  {
    RunKeepsBasic(capacity, states, acts, i);
    assert LocalOk(states[i], states[i].calls[c].op, states[i].calls[c].pc);
    ActsWithoutPeersIff(capacity, states, acts, i, c);
  }

  /** `try_receive_until` is about to fail its `expect` exactly if it once read no senders, and later some. */
  lemma ExpectFailsIff(capacity: nat, states: seq<State>, acts: seq<Action>, i: nat, c: CallId)
    requires IsRun(capacity, states, acts) && i < |states|
    requires c in states[i].calls && states[i].calls[c].op == Receive(Until) && states[i].calls[c].pc.Act?
    ensures states[i].queue == [] <==> PeersReappeared(states, acts, i, c)
  {
    RunKeepsBasic(capacity, states, acts, i);
    assert LocalOk(states[i], states[i].calls[c].op, states[i].calls[c].pc);
    ActsWithoutPeersIff(capacity, states, acts, i, c);
  }

  // ----- Peers that stay gone -----------------------------------------------------------------

  ghost predicate HasCall(s: State, sending: bool) {
    exists c :: c in s.calls && s.calls[c].op.Send? == sending
  }

  /** Once calls of one side have been made, a count of their peers that is zero stays zero. */
  ghost predicate PeersStayGone(states: seq<State>, sending: bool) {
    forall i, j :: 0 <= i < j < |states| && HasCall(states[i], sending) && Peers(states[i], sending) == 0 ==>
      Peers(states[j], sending) == 0
  }

  /** A call that stopped waiting for lack of peers still finds none, and says so. */
  ghost predicate GoneMeansGone(s: State, sending: bool) {
    forall c :: c in s.calls && s.calls[c].op.Send? == sending && PassedBecause(s.calls[c].pc) == Some(PeersGone) ==>
      Peers(s, sending) == 0 && (s.calls[c].pc.RecheckPeers? || s.calls[c].op == Receive(Forever))
  }

  ghost predicate NoPanic(s: State, sending: bool) {
    forall c :: c in s.calls && s.calls[c].op.Send? == sending ==> OutcomeOf(s.calls[c].pc) != Some(Panicked)
  }

  lemma PeersKept(s: State, a: Action, sending: bool)
    requires Can(s, a) && IsCallAction(a)
    ensures Peers(Do(s, a), sending) == Peers(s, sending)
  {
    CallStepKeepsHandles(s, a);
  }

  /** The call that steps is without peers only if it has just read so, or goes on to `pop`. */
  lemma GoneReader(s: State, a: Action, sending: bool)
    requires Basic(s) && Can(s, a) && IsCallAction(a) && GoneMeansGone(s, sending)
    requires a.c in Do(s, a).calls
    ensures var call := Do(s, a).calls[a.c];
            call.op.Send? == sending && PassedBecause(call.pc) == Some(PeersGone) ==>
              && Peers(s, sending) == 0
              && (call.pc.RecheckPeers? || call.op == Receive(Forever))
  {
    PassedStep(s, a);
    if PassedBecause(Do(s, a).calls[a.c].pc) == Some(PeersGone) {
      var call := s.calls[a.c];
      assert LocalOk(s, call.op, call.pc);
      assert Do(s, a).calls[a.c] == call.(pc := AfterRead(s, call.op, call.pc));
    }
  }

  lemma GoneStep(s: State, a: Action, sending: bool)
    requires Basic(s) && Can(s, a) && GoneMeansGone(s, sending)
    requires HasCall(s, sending) && Peers(s, sending) == 0 ==> Peers(Do(s, a), sending) == 0
    ensures GoneMeansGone(Do(s, a), sending)
  {
    var s' := Do(s, a);
    if IsCallAction(a) {
      CallStepOk(s, a);
      PeersKept(s, a, sending);
    } else {
      HandleStepKeepsCalls(s, a);
    }
    OthersUndisturbed(s, a);
    forall c | c in s'.calls && s'.calls[c].op.Send? == sending && PassedBecause(s'.calls[c].pc) == Some(PeersGone)
      ensures Peers(s', sending) == 0 && (s'.calls[c].pc.RecheckPeers? || s'.calls[c].op == Receive(Forever))
    {
      if IsCallAction(a) && c == a.c {
        GoneReader(s, a, sending);
      } else {
        GoneFrame(s, s', c, sending);
      }
    }
  }

  lemma GoneFrame(s: State, s': State, c: CallId, sending: bool)
    requires GoneMeansGone(s, sending) && c in s.calls && c in s'.calls && Undisturbed(s.calls[c], s'.calls[c])
    requires HasCall(s, sending) && Peers(s, sending) == 0 ==> Peers(s', sending) == 0
    requires s'.calls[c].op.Send? == sending && PassedBecause(s'.calls[c].pc) == Some(PeersGone)
    ensures Peers(s', sending) == 0 && (s'.calls[c].pc.RecheckPeers? || s'.calls[c].op == Receive(Forever))
  {
    assert HasCall(s, sending);
  }

  /** A call panics only at a push onto a full queue, or a pop from an empty one with a deadline. */
  ghost predicate MayPanic(call: Call) {
    || OutcomeOf(call.pc) == Some(Panicked)
    || (PassedBecause(call.pc) == Some(PeersGone) && call.pc.Act? && call.op != Receive(Forever))
  }

  lemma ReadNeverPanics(s: State, c: CallId)
    requires Basic(s) && Can(s, Read(c))
    ensures OutcomeOf(AfterRead(s, s.calls[c].op, s.calls[c].pc)) != Some(Panicked)
  {
  }

  lemma TransferPanicsOnlyIf(s: State, a: Action)
    requires Basic(s) && Can(s, a) && (a.PushOrPop? || a.GrowFails? || a.Grow?)
    requires OutcomeOf(Do(s, a).calls[a.c].pc) == Some(Panicked)
    ensures MayPanic(s.calls[a.c])
  {
    assert LocalOk(s, s.calls[a.c].op, s.calls[a.c].pc);
  }

  lemma PanicOnlyIf(s: State, a: Action)
    requires Basic(s) && Can(s, a) && IsCallAction(a)
    requires a.c in Do(s, a).calls && OutcomeOf(Do(s, a).calls[a.c].pc) == Some(Panicked)
    ensures a.c in s.calls && MayPanic(s.calls[a.c])
  {
    assert !a.Start?;
    if a.Read? {
      ReadNeverPanics(s, a.c);
    } else if a.PushOrPop? || a.Grow? || a.GrowFails? {
      TransferPanicsOnlyIf(s, a);
    }
  }

  lemma PanicStep(s: State, a: Action, sending: bool)
    requires Basic(s) && Can(s, a) && GoneMeansGone(s, sending) && NoPanic(s, sending)
    ensures NoPanic(Do(s, a), sending)
  {
    var s' := Do(s, a);
    OthersUndisturbed(s, a);
    forall c | c in s'.calls && s'.calls[c].op.Send? == sending
      ensures OutcomeOf(s'.calls[c].pc) != Some(Panicked)
    {
      if IsCallAction(a) && c == a.c {
        CallStepKeepsHandles(s, a);
        if OutcomeOf(s'.calls[c].pc) == Some(Panicked) {
          PanicOnlyIf(s, a);
        }
      } else {
        assert Undisturbed(s.calls[c], s'.calls[c]);
      }
    }
  }

  lemma NoGrowth(s: State, a: Action)
    requires Basic(s) && Can(s, a) && GoneMeansGone(s, true)
    ensures !a.Grow? && Do(s, a).room == s.room
  {
    assert a.Grow? ==> LocalOk(s, s.calls[a.c].op, s.calls[a.c].pc);
    if !IsCallAction(a) {
      HandleStepKeepsCalls(s, a);
    }
  }

  lemma StayGoneStep(states: seq<State>, i: nat, sending: bool)
    requires PeersStayGone(states, sending) && i + 1 < |states|
    ensures HasCall(states[i], sending) && Peers(states[i], sending) == 0 ==> Peers(states[i + 1], sending) == 0
  {
  }

  ghost predicate BoundInv(s: State, capacity: nat, sending: bool) {
    Basic(s) && GoneMeansGone(s, sending) && NoPanic(s, sending) && (sending ==> s.room == capacity)
  }

  lemma BoundInvStep(s: State, a: Action, s': State, capacity: nat, sending: bool)
    requires BoundInv(s, capacity, sending) && Step(s, a, s')
    requires HasCall(s, sending) && Peers(s, sending) == 0 ==> Peers(s', sending) == 0
    ensures BoundInv(s', capacity, sending)
  {
    BasicStep(s, a);
    GoneStep(s, a, sending);
    PanicStep(s, a, sending);
    if sending {
      NoGrowth(s, a);
    }
  }

  lemma {:induction false} RunStaysInBounds(capacity: nat, states: seq<State>, acts: seq<Action>, i: nat, sending: bool)
    requires IsRun(capacity, states, acts) && i < |states|
    requires PeersStayGone(states, sending)
    ensures BoundInv(states[i], capacity, sending)
  {
    if i == 0 {
      BasicInit(capacity);
    } else {
      RunStaysInBounds(capacity, states, acts, i - 1, sending);
      StayGoneStep(states, i - 1, sending);
      BoundInvStep(states[i - 1], acts[i - 1], states[i], capacity, sending);
    }
  }

  /** If receivers that are gone stay gone, the queue never exceeds its capacity and no send fails its `expect`. */
  lemma QueueBound(capacity: nat, states: seq<State>, acts: seq<Action>, i: nat)
    requires IsRun(capacity, states, acts) && i < |states|
    requires PeersStayGone(states, true)
    ensures |states[i].queue| <= capacity
    ensures forall c :: c in states[i].calls && states[i].calls[c].op.Send? ==> states[i].calls[c].pc != Done(Panicked)
  {
    RunStaysInBounds(capacity, states, acts, i, true);
  }

  /** If senders that are gone stay gone, no receive fails its `expect`. */
  lemma ReceiveNeverPanics(capacity: nat, states: seq<State>, acts: seq<Action>, i: nat, c: CallId)
    requires IsRun(capacity, states, acts) && i < |states|
    requires PeersStayGone(states, false)
    requires c in states[i].calls && states[i].calls[c].op.Receive?
    ensures states[i].calls[c].pc != Done(Panicked)
  {
    RunStaysInBounds(capacity, states, acts, i, false);
  }

  // ----- The end of the stream ----------------------------------------------------------------

  /** The answers of `receive` and `try_receive_once` that end a stream. */
  predicate SaysEnd(call: Call) {
    (call.pc.Unlock? || call.pc.Done?)
    && ((call.op == Receive(Forever) && call.pc.outcome == NoItem)
        || (call.op == Receive(Once) && call.pc.outcome == NoSenders))
  }

  ghost predicate EndIsEnd(s: State) {
    forall c :: c in s.calls && SaysEnd(s.calls[c]) ==> s.senders == 0 && s.queue == []
  }

  /** Without senders there is no send in progress, so nothing more is pushed. */
  lemma NoSenderNoPush(s: State, a: Action)
    requires Basic(s) && Lifetimes(s) && Can(s, a)
    requires !s.dropping && s.senders == 0 && s.queue == []
    ensures Do(s, a).queue == []
  {
    if !IsCallAction(a) {
      HandleStepKeepsCalls(s, a);
    } else if (a.PushOrPop? || a.Grow?) && s.calls[a.c].op.Send? {
      assert BorrowOk(s, s.calls[a.c]);
      RegisteredMeansPositive(s, s.calls[a.c].handle, OfSender);
    }
  }

  lemma EndFrame(s: State, s': State, c: CallId)
    requires EndIsEnd(s) && c in s.calls && c in s'.calls && Undisturbed(s.calls[c], s'.calls[c])
    requires HasCall(s, false) && s.senders == 0 ==> Peers(s', false) == 0
    requires SaysEnd(s'.calls[c])
    ensures s.senders == 0 && s.queue == [] && s'.senders == 0
  {
    assert HasCall(s, false);
  }

  lemma EndStep(s: State, a: Action)
    requires Basic(s) && Lifetimes(s) && Can(s, a)
    requires !s.dropping && GoneMeansGone(s, false) && EndIsEnd(s)
    requires HasCall(s, false) && s.senders == 0 ==> Peers(Do(s, a), false) == 0
    ensures EndIsEnd(Do(s, a))
  {
    var s' := Do(s, a);
    OthersUndisturbed(s, a);
    forall c | c in s'.calls && SaysEnd(s'.calls[c]) ensures s'.senders == 0 && s'.queue == [] {
      if IsCallAction(a) && c == a.c {
        EndBegins(s, a);
      } else {
        EndFrame(s, s', c);
        NoSenderNoPush(s, a);
      }
    }
  }

  lemma ReadBeginsEnd(s: State, c: CallId)
    requires Basic(s) && Can(s, Read(c)) && !s.dropping
    requires SaysEnd(Do(s, Read(c)).calls[c])
    ensures s.senders == 0 && s.queue == []
  {
    var call := s.calls[c];
    assert LocalOk(s, call.op, call.pc);
    assert Do(s, Read(c)).calls[c] == call.(pc := AfterRead(s, call.op, call.pc));
  }

  lemma PopBeginsEnd(s: State, c: CallId)
    requires Basic(s) && Can(s, PushOrPop(c))
    requires !s.dropping && GoneMeansGone(s, false)
    requires SaysEnd(Do(s, PushOrPop(c)).calls[c])
    ensures s.senders == 0 && s.queue == [] && Do(s, PushOrPop(c)).queue == []
  {
    assert LocalOk(s, s.calls[c].op, s.calls[c].pc);
  }

  lemma EndBegins(s: State, a: Action)
    requires Basic(s) && Can(s, a) && IsCallAction(a)
    requires !s.dropping && GoneMeansGone(s, false) && EndIsEnd(s)
    requires a.c in Do(s, a).calls && SaysEnd(Do(s, a).calls[a.c])
    ensures Do(s, a).senders == 0 && Do(s, a).queue == []
  {
    CallStepKeepsHandles(s, a);
    if a.Read? {
      ReadBeginsEnd(s, a.c);
    } else if a.PushOrPop? {
      PopBeginsEnd(s, a.c);
    } else {
      assert SaysEnd(s.calls[a.c]);
    }
  }

  /** What an undisturbed run keeps about the end of its stream. */
  ghost predicate EndInv(s: State) {
    Basic(s) && Lifetimes(s) && GoneMeansGone(s, false) && EndIsEnd(s)
  }

  lemma EndInvStep(s: State, a: Action, s': State)
    requires EndInv(s) && !s.dropping && Step(s, a, s')
    requires HasCall(s, false) && Peers(s, false) == 0 ==> Peers(s', false) == 0
    ensures EndInv(s')
  {
    BasicStep(s, a);
    LifetimesStep(s, a);
    GoneStep(s, a, false);
    EndStep(s, a);
  }

  lemma EndInvInit(capacity: nat)
    ensures EndInv(Init(capacity))
  {
    BasicInit(capacity);
    LifetimesInit(capacity);
  }

  lemma {:induction false} RunKeepsEnd(capacity: nat, states: seq<State>, acts: seq<Action>, i: nat)
    requires IsRun(capacity, states, acts) && i < |states|
    requires PeersStayGone(states, false) && !states[i].dropping
    ensures EndInv(states[i])
  {
    if i == 0 {
      EndInvInit(capacity);
    } else {
      if states[i - 1].dropping {
        DroppingIsKept(states, acts, i - 1, i);
      }
      RunKeepsEnd(capacity, states, acts, i - 1);
      StayGoneStep(states, i - 1, false);
      EndInvStep(states[i - 1], acts[i - 1], states[i]);
    }
  }

  /** Nothing is queued and no sender is left. */
  ghost predicate IsOver(s: State) {
    s.queue == [] && s.senders == 0 && CountedSet(s, OfSender) == {}
  }

  lemma NoSenderNoSend(s: State, c: CallId)
    requires Lifetimes(s) && CountedSet(s, OfSender) == {}
    requires c in s.calls && s.calls[c].op.Send?
    ensures s.calls[c].pc.Done?
  {
    assert BorrowOk(s, s.calls[c]);
    assert s.calls[c].handle !in CountedSet(s, OfSender);
  }

  lemma NoNewSender(s: State, a: Action)
    requires Lifetimes(s) && Can(s, a) && !IsCallAction(a) && IsOver(s) && Do(s, a).senders == 0
    ensures CountedSet(Do(s, a), OfSender) == {}
  {
    OneHandleMoves(s, a);
    SetsAfterStep(s, Do(s, a), a.h);
    if a.Destroy? {
      StaysCloser(s, a.h);
    } else {
      assert a.h in s.handles ==> PhaseOk(s.handles[a.h]) && a.h !in CountedSet(s, OfSender);
      if IsMaking(a) {
        MakingCounts(s, a, OfSender);
      } else if a.Broadcast? {
        BroadcastMoves(s, a.h);
      } else if a.DropRef? {
        ReleaseMoves(s, a.h);
      } else {
        LoopCounts(s, a, OfSender);
      }
    }
  }

  lemma OverStep(s: State, a: Action)
    requires Basic(s) && Lifetimes(s) && Can(s, a) && IsOver(s) && Do(s, a).senders == 0
    ensures IsOver(Do(s, a))
  {
    if IsCallAction(a) {
      CallStepKeepsHandles(s, a);
      assert CountedSet(Do(s, a), OfSender) == CountedSet(s, OfSender);
      if (a.PushOrPop? || a.Grow?) && s.calls[a.c].op.Send? {
        NoSenderNoSend(s, a.c);
      }
    } else {
      HandleStepKeepsCalls(s, a);
      NoNewSender(s, a);
    }
  }

  /**
     With senders that stay gone: when `receive` has answered `None` or `try_receive_once` has answered
     `NoSenders`, and nothing is being destroyed, everything ever pushed has been popped, then and from
     then on, even through a later destruction.
   */
  lemma EndOfStreamIsFinal(capacity: nat, states: seq<State>, acts: seq<Action>, i: nat, j: nat, c: CallId)
    requires IsRun(capacity, states, acts) && i <= j < |states|
    requires PeersStayGone(states, false) && !states[i].dropping
    requires c in states[i].calls && SaysEnd(states[i].calls[c])
    ensures states[j].popped == states[j].pushed
    ensures states[j].senders == 0
  {
    RunKeepsEnd(capacity, states, acts, i);
    assert IsOver(states[i]);
    assert HasCall(states[i], false);
    forall m | i <= m < j && IsOver(states[m]) ensures IsOver(states[m + 1]) {
      RunKeepsLifetimes(capacity, states, acts, m);
      assert Step(states[m], acts[m], states[m + 1]);
      assert Peers(states[i], false) == 0 && Peers(states[m + 1], false) == 0;
      OverStep(states[m], acts[m]);
    }
    KeptAlong(states, i, j, s => IsOver(s));
    RunKeepsBasic(capacity, states, acts, j);
  }

  /**
     `try_receive_until`, which answers `NoSenders` after its wait whatever is queued: it does so with
     items still there exactly if its wait ended because there was one.
   */
  lemma EndWithItemsIff(capacity: nat, states: seq<State>, acts: seq<Action>, i: nat, c: CallId)
    requires IsRun(capacity, states, acts) && i < |acts| && acts[i] == Read(c)
    requires c in states[i].calls && states[i].calls[c].op == Receive(Until) && IsRead(states[i].calls[c].pc)
    requires AfterRead(states[i], Receive(Until), states[i].calls[c].pc) == Unlock(NoSenders)
    ensures PassedBecause(states[i].calls[c].pc).Some?
    ensures states[i].queue != [] <==> PassedBecause(states[i].calls[c].pc) == Some(QueueReady)
    ensures states[i + 1].queue == states[i].queue
  {
    RunKeepsBasic(capacity, states, acts, i);
    assert LocalOk(states[i], states[i].calls[c].op, states[i].calls[c].pc);
    assert Step(states[i], acts[i], states[i + 1]);
  }
}
