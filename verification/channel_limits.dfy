/**
 Where the guarantees end. Wakeups are lost to calls that merely wait, and to a queue that grows, and
 exactly as many as that; a peer that reappears at the wrong moment lets the queue outgrow its capacity
 and makes `expect` fail; a stream can be reported as ended with an item still queued.
 */
module ChannelLimits {
  import opened Wrappers
  import opened Channel
  import opened ChannelWakeups
  import opened ChannelDelivery
  import opened ChannelRuns

  // ----- Lost wakeups -------------------------------------------------------------------------

  /**
     The mutex is free, a receive (send) sleeps, what is to be had exceeds the calls woken for it by
     `lost`, and no closing broadcast is to come.
   */
  ghost predicate Loses(s: State, space: bool, lost: nat) {
    && s.owner == None && !s.dropping && !ClosingAhead(s, space)
    && (exists c :: c in s.calls && !s.calls[c].op.WaitForMessage? && AsleepOn(s.calls[c], space))
    && Available(s, space) >= |WokenCalls(s, space)| + lost
  }

  /** Some run loses `lost` items (units of room) with so many finders (so much room added by growth). */
  ghost predicate CanLose(space: bool, excused: nat, lost: nat) {
    exists capacity: nat, s: State :: Reaches(capacity, s) && Excused(s, space) == excused && Loses(s, space, lost)
  }

  /**
     While nothing is destroyed, runs can lose exactly as many items as waiters have found one, and
     exactly as much room as growth has added beyond the item it was for.
   */
  lemma LossIff(space: bool, excused: nat, lost: nat)
    ensures CanLose(space, excused, lost) <==> lost <= excused
  {
    if capacity: nat, s: State :| Reaches(capacity, s) && Excused(s, space) == excused && Loses(s, space, lost) {
      LossIsExcused(capacity, s, space, lost);
    }
    if lost <= excused {
      var s;
      if space {
        s := RoomIsForgotten(0, excused);
      } else {
        s := ItemsAreForgotten(excused, excused);
      }
      assert Loses(s, space, lost);
    }
  }

  lemma LossIsExcused(capacity: nat, s: State, space: bool, lost: nat)
    requires Reaches(capacity, s) && Loses(s, space, lost)
    ensures lost <= Excused(s, space)
  {
    var states: seq<State>, acts: seq<Action> :| PathTo(Init(capacity), states, acts, s, None);
    var c :| c in s.calls && AsleepOn(s.calls[c], space);
    assert c in Sleepers(s, space);
    WhatIsOwedIsServed(capacity, states, acts, |acts|, space);
  }

  const WAITED: Call := Call(WaitForMessage, 2, Done(MessageThere))
  const SENT: Call := Call(Send(Forever, 5), 1, Done(Sent))

  /**
     A receiver (call 0) and `n` waiters were asleep; `j` items have come, and for each of them one
     waiter has been woken and has left again.
   */
  ghost predicate PassedBy(s: State, capacity: nat, n: nat, j: nat) {
    && s.capacity == s.room == capacity && |s.queue| == j && |Finders(s)| == j
    && !s.freed && !s.dropping && s.owner == None && s.handles == PAIR && s.senders == 1 && s.receivers == 1
    && (forall c: CallId :: c in s.calls <==> c <= n + j)
    && s.calls[0] == Call(Receive(Forever), 2, Sleeping)
    && (forall c: CallId :: 0 < c <= n ==> s.calls[c] == if c <= j then WAITED else Call(WaitForMessage, 2, Sleeping))
    && (forall c: CallId :: n < c <= n + j ==> s.calls[c] == SENT)
  }

  lemma {:induction false} AllFallAsleep(capacity: nat, n: nat) returns (s: State)
    ensures Reaches(capacity, s) && PassedBy(s, capacity, n, 0)
  {
    var t, op;
    if n == 0 {
      PairIsReached(capacity, true);
      t, op := WithPair(capacity, true), Receive(Forever);
    } else {
      t := AllFallAsleep(capacity, n - 1);
      op := WaitForMessage;
    }
    ComesToCheckClosing(capacity, t, n, op, 2);
    ChecksClosingAndSleeps(capacity, t, n, op, 2);
    s := Put(t, n, op, 2, Sleeping, None);
    assert forall c: CallId :: c in t.calls <==> c < n;
    assert Finders(s) == {};
  }

  lemma {:induction false} ItemsPassBy(capacity: nat, n: nat, j: nat) returns (s: State)
    requires j <= n <= capacity
    ensures Reaches(capacity, s) && PassedBy(s, capacity, n, j)
  {
    if j == 0 {
      s := AllFallAsleep(capacity, n);
    } else {
      var t := ItemsPassBy(capacity, n, j - 1);
      assert j in Sleepers(t, false);
      Sends(capacity, t, n + j, 5, {j});
      var u := AfterSend(t, n + j, 5, t.room, {j});
      assert u.calls[j] == t.calls[j].(pc := Woken(false));
      s := WaiterLeaves(capacity, u, j);
      OneMorePassedBy(t, s, capacity, n, j);
    }
  }

  lemma OneMorePassedBy(t: State, s: State, capacity: nat, n: nat, j: nat)
    requires 0 < j <= n && PassedBy(t, capacity, n, j - 1)
    requires s == t.(calls := s.calls, queue := s.queue, pushed := s.pushed, strayItems := s.strayItems)
    requires |s.queue| == j
    requires s.calls == t.calls[j := WAITED][n + j := SENT]
    ensures PassedBy(s, capacity, n, j)
  {
    OneMoreFinder(t, s, j, n + j);
  }

  lemma OneMoreFinder(t: State, s: State, j: CallId, k: CallId)
    requires s.calls == t.calls[j := WAITED][k := SENT] && j != k
    requires j !in Finders(t) && k !in t.calls
    ensures |Finders(s)| == |Finders(t)| + 1
  {
    assert Finders(s) == Finders(t) + {j};
  }

  /**
     `wait_for_message` takes every signal and leaves: n items are queued, the receiver sleeps on, and
     nobody has been woken, although sender and receiver were there all along.
   */
  lemma ItemsAreForgotten(capacity: nat, n: nat) returns (s: State)
    requires n <= capacity
    ensures Reaches(capacity, s) && Loses(s, false, n) && |Finders(s)| == n
    ensures WokenCalls(s, false) == {} && s.handles == PAIR
  {
    s := ItemsPassBy(capacity, n, n);
    assert s.calls[0] == Call(Receive(Forever), 2, Sleeping);
    assert WokenCalls(s, false) == {};
  }

  lemma WaiterLeaves(capacity: nat, s: State, c: CallId) returns (t: State)
    requires Reaches(capacity, s) && !s.freed && s.owner == None && s.queue != []
    requires c in s.calls && s.calls[c] == Call(WaitForMessage, 2, Woken(false))
    ensures Reaches(capacity, t)
    ensures t == s.(calls := s.calls[c := Call(WaitForMessage, 2, Done(MessageThere))], strayItems := s.strayItems + 1)
  {
    var s1 := Put(s, c, WaitForMessage, 2, CheckQueue(false), Some(c));
    Go(capacity, s, Reacquire(c), s1);
    var s2 := Put(s, c, WaitForMessage, 2, Unlock(MessageThere), Some(c)).(strayItems := s.strayItems + 1);
    Go(capacity, s1, Read(c), s2);
    t := Put(s, c, WaitForMessage, 2, Done(MessageThere), None).(strayItems := s.strayItems + 1);
    Go(capacity, s2, Release(c), t);
  }

  /**
     A queue that grows by more than its item leaves room that is announced to nobody: a send that
     the closing broadcast missed sleeps on beside it, although there is a receiver again.
   */
  lemma RoomIsForgotten(capacity: nat, extra: nat) returns (s: State)
    ensures Reaches(capacity, s) && Loses(s, true, extra) && s.room == capacity + 1 + extra
    ensures Excused(s, true) == extra
    ensures WokenCalls(s, true) == {} && s.receivers > 0
  {
    var full := FilledIsReached(capacity, capacity, true);
    var a, b := capacity, capacity + 1;
    ComesToCheckClosing(capacity, full, a, Send(Forever, 5), 1);
    var late := Put(full, a, Send(Forever, 5), 1, CheckClosing(false), Some(a));
    PeerIsDropped(capacity, late, 2);
    var closed := Dropped(full, 2);
    assert Dropped(late, 2) == Put(closed, a, Send(Forever, 5), 1, CheckClosing(false), Some(a));
    ChecksClosingAndSleeps(capacity, closed, a, Send(Forever, 5), 1);
    s := AnotherSendGrows(capacity, Put(closed, a, Send(Forever, 5), 1, Sleeping, None), b, extra);
    assert s.calls[a] == Call(Send(Forever, 5), 1, Sleeping);
    assert WokenCalls(s, true) == {};
  }

  lemma AnotherSendGrows(capacity: nat, s: State, b: CallId, extra: nat) returns (t: State)
    requires Reaches(capacity, s) && Idle(s, b, Send(Forever, 6), 1)
    requires |s.queue| == s.room && s.receivers == 0 && Sleepers(s, false) == {}
    requires s.handles == PAIR[2 := PAIR[2].(phase := Gone)]
    ensures Reaches(capacity, t)
    ensures t.calls == s.calls[b := Call(Send(Forever, 6), 1, Done(Sent))]
    ensures t.owner == None && t.receivers == 1 && !t.dropping && t.capacity == s.capacity
    ensures |t.queue| == s.room + 1 && t.room == s.room + 1 + extra
    ensures t.handles == s.handles[3 := Handle(OfReceiver, true, 0, Live)]
  {
    var op := Send(Forever, 6);
    PeerReappears(capacity, s, b, op, 1);
    var u := WithPeer(s, 3, OfReceiver, true);
    var room := s.room + 1 + extra;
    var v := Pushed(u, b, 6, room);
    Go(capacity, Put(u, b, op, 1, Act(PeersGone), Some(b)), Grow(b, room), Put(v, b, op, 1, Notify(Sent), Some(b)));
    assert Sleepers(v, false) == {} && WakeCalls(v.calls, {}) == v.calls;
    SignalAndRelease(capacity, v, b, 6, {});
    t := Put(v.(calls := WakeCalls(v.calls, {})), b, op, 1, Done(Sent), None);
  }

  // ----- A peer that reappears ----------------------------------------------------------------

  /** One sender, one receiver, `k` items queued, all calls over. */
  ghost predicate Filled(s: State, capacity: nat, k: nat, home: bool) {
    && s.capacity == s.room == capacity && |s.queue| == k
    && !s.freed && !s.dropping && s.owner == None && s.handles == Pair(home)
    && s.senders == 1 && s.receivers == 1 && s.refs == (if home then 3 else 1)
    && (forall c :: c in s.calls ==> c < k && s.calls[c].pc == Done(Sent))
  }

  lemma {:induction false} FilledIsReached(capacity: nat, k: nat, home: bool) returns (s: State)
    requires k <= capacity
    ensures Reaches(capacity, s) && Filled(s, capacity, k, home)
  {
    if k == 0 {
      PairIsReached(capacity, home);
      s := WithPair(capacity, home);
    } else {
      var t := FilledIsReached(capacity, k - 1, home);
      assert Sleepers(t, false) == {};
      Sends(capacity, t, k - 1, 5, {});
      s := AfterSend(t, k - 1, 5, t.room, {});
    }
  }

  /** The send that finds the queue full and no receivers, and before it looks again a receiver is made. */
  lemma SendOntoFull(capacity: nat, mode: Mode) returns (s: State)
    requires mode != Once
    ensures Reaches(capacity, s) && !s.freed && |s.queue| == s.room == capacity
    ensures capacity in s.calls && s.calls[capacity] == Call(Send(mode, 5), 1, Act(PeersGone))
  {
    var full := FilledIsReached(capacity, capacity, true);
    assert Sleepers(full, true) == {};
    PeerIsDropped(capacity, full, 2);
    var t := Dropped(full, 2);
    PeerReappears(capacity, t, capacity, Send(mode, 5), 1);
    s := Put(WithPeer(t, 3, OfReceiver, true), capacity, Send(mode, 5), 1, Act(PeersGone), Some(capacity));
  }

  /** Whatever the capacity, a run can push beyond it ... */
  lemma EveryCapacityCanBeExceeded(capacity: nat) returns (s: State)
    ensures Reaches(capacity, s) && |s.queue| == capacity + 1
  {
    var t := SendOntoFull(capacity, Forever);
    s := Do(t, Grow(capacity, capacity + 1));
    Go(capacity, t, Grow(capacity, capacity + 1), s);
  }

  /** ... or, if the queue cannot grow, the `expect` of the send fails. */
  lemma SendCanPanic(capacity: nat, mode: Mode) returns (s: State)
    requires mode != Once
    ensures Reaches(capacity, s)
    ensures capacity in s.calls && s.calls[capacity] == Call(Send(mode, 5), 1, Done(Panicked))
  {
    var t := SendOntoFull(capacity, mode);
    var u := Do(t, GrowFails(capacity));
    Go(capacity, t, GrowFails(capacity), u);
    s := Do(u, Release(capacity));
    Go(capacity, u, Release(capacity), s);
  }

  /** A sender that reappears makes the `expect` of `try_receive_until` fail, with an empty queue. */
  lemma ReceiveCanPanic(capacity: nat) returns (s: State)
    ensures Reaches(capacity, s)
    ensures s.calls == map[0 := Call(Receive(Until), 2, Done(Panicked))]
    ensures s.senders == 1 && s.queue == []
  {
    var op := Receive(Until);
    PairIsReached(capacity, true);
    assert Sleepers(WithPair(capacity, true), false) == {};
    PeerIsDropped(capacity, WithPair(capacity, true), 1);
    var t := Dropped(WithPair(capacity, true), 1);
    PeerReappears(capacity, t, 0, op, 2);
    s := PopFails(capacity, WithPeer(t, 3, OfSender, true), 0);
  }

  /** `try_receive_until` finds an item, the only sender goes, and it answers `NoSenders` with the item queued. */
  lemma NoSendersWithItemQueued(capacity: nat) returns (s: State)
    requires capacity > 0
    ensures Reaches(capacity, s) && !s.dropping
    ensures 1 in s.calls && s.calls[1] == Call(Receive(Until), 2, Done(NoSenders))
    ensures s.queue == [Msg(0, 5)] && s.senders == 0
  {
    var op := Receive(Until);
    PairIsReached(capacity, true);
    var w := WithPair(capacity, true);
    assert Sleepers(w, false) == {};
    Sends(capacity, w, 0, 5, {});
    var u := AfterSend(w, 0, 5, w.room, {});
    StartAndLock(capacity, u, 1, op, 2);
    Reads(capacity, u, 1, op, 2, CheckQueue(false), RecheckPeers(QueueReady));
    var found := Put(u, 1, op, 2, RecheckPeers(QueueReady), Some(1));
    assert Sleepers(found, false) == {};
    PeerIsDropped(capacity, found, 1);
    s := AnswersNoSenders(capacity, Dropped(found, 1));
  }

  lemma AnswersNoSenders(capacity: nat, t: State) returns (s: State)
    requires Reaches(capacity, t) && !t.freed && t.senders == 0 && t.queue != []
    requires 1 in t.calls && t.calls[1] == Call(Receive(Until), 2, RecheckPeers(QueueReady))
    ensures Reaches(capacity, s)
    ensures s == Put(t, 1, Receive(Until), 2, Done(NoSenders), None).(strayItems := t.strayItems + 1)
  {
    var u := MoveTo(t, 1, Unlock(NoSenders)).(strayItems := t.strayItems + 1);
    Go(capacity, t, Read(1), u);
    s := Do(u, Release(1));
    Go(capacity, u, Release(1), s);
  }

  lemma PopFails(capacity: nat, u: State, c: CallId) returns (s: State)
    requires Reaches(capacity, Put(u, c, Receive(Until), 2, Act(PeersGone), Some(c))) && !u.freed && u.queue == []
    ensures Reaches(capacity, s)
    ensures s == Put(u, c, Receive(Until), 2, Done(Panicked), None)
  {
    var s1 := Put(u, c, Receive(Until), 2, Unlock(Panicked), Some(c));
    Go(capacity, Put(u, c, Receive(Until), 2, Act(PeersGone), Some(c)), PushOrPop(c), s1);
    s := Put(u, c, Receive(Until), 2, Done(Panicked), None);
    Go(capacity, s1, Release(c), s);
  }
}
