/** First in, first out, and every message exactly once: what was sent, queued and received, over any interleaving. */
module ChannelHistory {
  import opened Wrappers
  import opened Channel
  import opened ChannelSafety

  /** The success a call has already had, if any. */
  function Delivered(pc: Pc): Option<Outcome> {
    if (pc.Notify? || pc.Unlock? || pc.Done?) && (pc.outcome.Sent? || pc.outcome.Received?) then Some(pc.outcome)
    else None
  }

  function DeliveredBy(s: State, c: CallId): Option<Outcome> {
    if c in s.calls then Delivered(s.calls[c].pc) else None
  }

  ghost predicate IsPushed(s: State, c: CallId) {
    exists i :: 0 <= i < |s.pushed| && s.pushed[i].call == c
  }

  ghost predicate IsTaken(s: State, c: CallId) {
    exists i :: 0 <= i < |s.takers| && s.takers[i] == c
  }

  /** Entry `i` of the pushed history belongs to a send that succeeded, with that send's item. */
  ghost predicate PushedOk(s: State, m: Msg) {
    && m.call in s.calls && s.calls[m.call].op.Send? && s.calls[m.call].op.item == m.item
    && DeliveredBy(s, m.call) == Some(Sent)
  }

  /**
     Pushes and successful sends correspond one to one, with the right items; so do pops and
     successful receives.
   */
  ghost predicate Ledger(s: State) {
    && |s.takers| == |s.popped|
    && (forall i :: 0 <= i < |s.pushed| ==> PushedOk(s, s.pushed[i]))
    && (forall i, j :: 0 <= i < j < |s.pushed| ==> s.pushed[i].call != s.pushed[j].call)
    && (forall c :: DeliveredBy(s, c) == Some(Sent) ==> IsPushed(s, c))
    && (forall i :: 0 <= i < |s.takers| ==> DeliveredBy(s, s.takers[i]) == Some(Received(s.popped[i])))
    && (forall i, j :: 0 <= i < j < |s.takers| ==> s.takers[i] != s.takers[j])
    && (forall c :: DeliveredBy(s, c).Some? && DeliveredBy(s, c).value.Received? ==> IsTaken(s, c))
  }

  /** No history entry and no delivery is added or lost. */
  ghost predicate SameDeliveries(s: State, s': State) {
    && s'.pushed == s.pushed && s'.popped == s.popped && s'.takers == s.takers
    && (forall c :: c in s.calls ==> c in s'.calls && s'.calls[c].op == s.calls[c].op)
    && (forall c :: DeliveredBy(s', c) == DeliveredBy(s, c))
  }

  lemma LedgerFrame(s: State, s': State)
    requires Ledger(s) && SameDeliveries(s, s')
    ensures Ledger(s')
  {
    forall i | 0 <= i < |s'.pushed| ensures PushedOk(s', s'.pushed[i]) {
      assert PushedOk(s, s.pushed[i]);
    }
    forall c | DeliveredBy(s', c) == Some(Sent) ensures IsPushed(s', c) {
      assert IsPushed(s, c);
    }
    forall c | DeliveredBy(s', c).Some? && DeliveredBy(s', c).value.Received? ensures IsTaken(s', c) {
      assert IsTaken(s, c);
    }
  }

  predicate Transfers(s: State, a: Action) {
    a.Grow? || (a.PushOrPop? && (a.c in s.calls && s.calls[a.c].op.Receive? ==> s.queue != []))
  }

  lemma QuietMove(s: State, s': State, c: CallId)
    requires OneMoved(s, s', c)
    requires s'.pushed == s.pushed && s'.popped == s.popped && s'.takers == s.takers
    requires if c in s.calls then
               s'.calls[c].op == s.calls[c].op && Delivered(s'.calls[c].pc) == Delivered(s.calls[c].pc)
             else Delivered(s'.calls[c].pc) == None
    ensures SameDeliveries(s, s')
  {
    forall d ensures DeliveredBy(s', d) == DeliveredBy(s, d) {
      assert d in s.calls && d != c ==> Undisturbed(s.calls[d], s'.calls[d]);
    }
    forall d | d in s.calls ensures d in s'.calls && s'.calls[d].op == s.calls[d].op {
      assert d != c ==> Undisturbed(s.calls[d], s'.calls[d]);
    }
  }

  ghost predicate Quiet(s: State, s': State, c: CallId) {
    && s'.pushed == s.pushed && s'.popped == s.popped && s'.takers == s.takers
    && c in s'.calls
    && if c in s.calls then s'.calls[c].op == s.calls[c].op && Delivered(s'.calls[c].pc) == Delivered(s.calls[c].pc)
       else Delivered(s'.calls[c].pc) == None
  }

  lemma QuietRead(s: State, c: CallId)
    requires Can(s, Read(c))
    ensures Quiet(s, DoRead(s, c), c)
  {
    var pc := AfterRead(s, s.calls[c].op, s.calls[c].pc);
    assert Delivered(pc) == None;
  }

  lemma QuietCall(s: State, a: Action)
    requires Basic(s) && Can(s, a) && IsCallAction(a) && !Transfers(s, a)
    ensures Quiet(s, Do(s, a), a.c)
  {
    if a.Read? {
      QuietRead(s, a.c);
    } else if a.Signal? {
      assert a.c !in a.chosen;
    } else if a.PushOrPop? || a.GrowFails? {
      QuietTransfer(s, a);
    } else if a.Lock? || a.LockFails? || a.Reacquire? {
      QuietLock(s, a);
    }
  }

  lemma QuietTransfer(s: State, a: Action)
    requires Basic(s) && (a.PushOrPop? || a.GrowFails?) && CanCall(s, a) && !Transfers(s, a)
    ensures Quiet(s, DoCall(s, a), a.c)
  {
    if a.PushOrPop? {
      assert Delivered(AfterEmptyPop(s.calls[a.c].op.mode)) == None;
    }
  }

  lemma QuietLock(s: State, a: Action)
    requires (a.Lock? || a.LockFails? || a.Reacquire?) && CanCall(s, a)
    ensures Quiet(s, DoCall(s, a), a.c)
  {
    if a.LockFails? {
      assert Delivered(Done(OnTimeout(s.calls[a.c].op))) == None;
    }
  }

  lemma QuietHandle(s: State, a: Action)
    requires Can(s, a) && !IsCallAction(a)
    ensures SameDeliveries(s, Do(s, a))
  {
    HandleStepKeepsCalls(s, a);
    var s' := Do(s, a);
    forall c ensures DeliveredBy(s', c) == DeliveredBy(s, c) {
      assert c in s.calls ==> Undisturbed(s.calls[c], s'.calls[c]);
    }
  }

  lemma QuietStep(s: State, a: Action)
    requires Basic(s) && Can(s, a) && !Transfers(s, a)
    ensures SameDeliveries(s, Do(s, a))
  {
    if IsCallAction(a) {
      CallStepOk(s, a);
      QuietCall(s, a);
      QuietMove(s, Do(s, a), a.c);
    } else {
      QuietHandle(s, a);
    }
  }

  lemma PushLedger(s: State, c: CallId, s': State)
    requires Ledger(s) && c in s.calls && s.calls[c].op.Send? && s.calls[c].pc.Act?
    requires s'.calls == DoPush(s, c).calls && s'.pushed == DoPush(s, c).pushed
    requires s'.popped == s.popped && s'.takers == s.takers
    ensures Ledger(s')
  {
    assert forall d :: d != c ==> DeliveredBy(s', d) == DeliveredBy(s, d);
    assert DeliveredBy(s, c) == None && DeliveredBy(s', c) == Some(Sent);
    assert s'.pushed[|s.pushed|].call == c;
    forall i | 0 <= i < |s'.pushed| ensures PushedOk(s', s'.pushed[i]) && (i < |s.pushed| ==> s'.pushed[i].call != c) {
      if i < |s.pushed| {
        assert PushedOk(s, s.pushed[i]);
      }
    }
    forall d | DeliveredBy(s', d) == Some(Sent) ensures IsPushed(s', d) {
      if d != c {
        assert IsPushed(s, d);
        var i :| 0 <= i < |s.pushed| && s.pushed[i].call == d;
        assert s'.pushed[i].call == d;
      }
    }
    forall d | DeliveredBy(s', d).Some? && DeliveredBy(s', d).value.Received? ensures IsTaken(s', d) {
      assert IsTaken(s, d);
    }
  }

  lemma PopLedger(s: State, c: CallId, s': State)
    requires Ledger(s) && c in s.calls && s.calls[c].op.Receive? && s.calls[c].pc.Act?
    requires s.queue != [] && s' == DoPop(s, c)
    ensures Ledger(s')
  {
    assert forall d :: d != c ==> DeliveredBy(s', d) == DeliveredBy(s, d);
    assert DeliveredBy(s, c) == None && DeliveredBy(s', c) == Some(Received(s.queue[0]));
    assert s'.takers[|s.takers|] == c;
    forall i | 0 <= i < |s'.pushed| ensures PushedOk(s', s'.pushed[i]) {
      assert PushedOk(s, s.pushed[i]);
    }
    forall d | DeliveredBy(s', d) == Some(Sent) ensures IsPushed(s', d) {
      assert IsPushed(s, d);
    }
    forall d | DeliveredBy(s', d).Some? && DeliveredBy(s', d).value.Received? ensures IsTaken(s', d) {
      if d != c {
        assert IsTaken(s, d);
        var i :| 0 <= i < |s.takers| && s.takers[i] == d;
        assert s'.takers[i] == d;
      }
    }
  }

  lemma LedgerStep(s: State, a: Action)
    requires Basic(s) && Ledger(s) && Can(s, a)
    ensures Ledger(Do(s, a))
  {
    if !Transfers(s, a) {
      QuietStep(s, a);
      LedgerFrame(s, Do(s, a));
    } else if s.calls[a.c].op.Send? {
      PushLedger(s, a.c, Do(s, a));
    } else {
      PopLedger(s, a.c, Do(s, a));
    }
  }

  // ----- Whole runs ---------------------------------------------------------------------------

  lemma RunKeepsHistory(capacity: nat, states: seq<State>, acts: seq<Action>, i: nat)
    requires IsRun(capacity, states, acts) && i < |states|
    ensures Basic(states[i]) && Ledger(states[i])
  {
    forall m | 0 <= m < i && Ledger(states[m]) ensures Ledger(states[m + 1]) {
      RunKeepsBasic(capacity, states, acts, m);
      assert Step(states[m], acts[m], states[m + 1]);
      LedgerStep(states[m], acts[m]);
    }
    KeptAlong(states, 0, i, s => Ledger(s));
    RunKeepsBasic(capacity, states, acts, i);
  }

  /** In every state of every run the queue holds, in order, exactly what was pushed and not yet popped. */
  lemma FifoAndConservation(capacity: nat, states: seq<State>, acts: seq<Action>, i: nat)
    requires IsRun(capacity, states, acts) && i < |states|
    ensures var s := states[i];
            && s.pushed == s.popped + s.queue
            && |s.takers| == |s.popped| <= |s.pushed|
            && forall k :: 0 <= k < |s.popped| ==>
                 && s.popped[k] == s.pushed[k]
                 && DeliveredBy(s, s.takers[k]) == Some(Received(s.pushed[k]))
  {
    RunKeepsHistory(capacity, states, acts, i);
  }

  /** A send that answers with its item has pushed nothing; one that succeeds has pushed its item once. */
  lemma FailedSendHandsBackItsItem(capacity: nat, states: seq<State>, acts: seq<Action>, i: nat, c: CallId)
    requires IsRun(capacity, states, acts) && i < |states|
    requires c in states[i].calls && states[i].calls[c].op.Send? && states[i].calls[c].pc.Done?
    ensures var s := states[i]; var item := s.calls[c].op.item;
            match s.calls[c].pc.outcome
            case Sent => exists k :: 0 <= k < |s.pushed| && s.pushed[k] == Msg(c, item)
                           && forall l :: 0 <= l < |s.pushed| && l != k ==> s.pushed[l].call != c
            case Refused(back) => back == item && !IsPushed(s, c)
            case SendTimedOut(back) => back == item && !IsPushed(s, c)
            case Panicked => !IsPushed(s, c)
            case _ => false
  {
    RunKeepsHistory(capacity, states, acts, i);
    var s := states[i];
    assert LocalOk(s, s.calls[c].op, s.calls[c].pc);
    assert forall k :: 0 <= k < |s.pushed| ==> PushedOk(s, s.pushed[k]);
    if s.calls[c].pc.outcome == Sent {
      assert DeliveredBy(s, c) == Some(Sent);
      var k :| 0 <= k < |s.pushed| && s.pushed[k].call == c;
      assert PushedOk(s, s.pushed[k]);
    }
  }

  /** No two receives get the same entry of the stream, and each gets what some send put there. */
  lemma ReceivedOnceAndSent(capacity: nat, states: seq<State>, acts: seq<Action>, i: nat, c: CallId, m: Msg)
    requires IsRun(capacity, states, acts) && i < |states|
    requires DeliveredBy(states[i], c) == Some(Received(m))
    ensures var s := states[i];
            && PushedOk(s, m)
            && |s.takers| == |s.popped| <= |s.pushed|
            && exists k :: 0 <= k < |s.popped| && s.pushed[k] == m && s.takers[k] == c
                 && forall l :: 0 <= l < |s.takers| && l != k ==> s.takers[l] != c && s.pushed[l] != m
  {
    RunKeepsHistory(capacity, states, acts, i);
    var s := states[i];
    var k :| 0 <= k < |s.takers| && s.takers[k] == c;
    assert s.popped[k] == s.pushed[k] == m;
    assert PushedOk(s, s.pushed[k]);
  }
}
