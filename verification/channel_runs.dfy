/** Showing that runs exist: paths are put together step by step, and pieces of runs are reused. */
module ChannelRuns {
  import opened Wrappers
  import opened Channel

  /** The peers of one side are gone and nothing is being destroyed. */
  ghost predicate LeftAlone(s: State, sending: bool) {
    Peers(s, sending) == 0 && !s.dropping
  }

  /** A path from `start` to `s`; with `gone`, one along which the peers of that side stay gone. */
  ghost predicate PathTo(start: State, states: seq<State>, acts: seq<Action>, s: State, gone: Option<bool>) {
    && IsPath(states, acts)
    && states[0] == start && states[|acts|] == s
    && (gone.Some? ==> forall k :: 0 <= k < |states| ==> LeftAlone(states[k], gone.value))
  }

  ghost predicate Leads(start: State, s: State, gone: Option<bool>) {
    exists states: seq<State>, acts: seq<Action> :: PathTo(start, states, acts, s, gone)
  }

  /** Some run ends in `s`. */
  ghost predicate Reaches(capacity: nat, s: State) {
    Leads(Init(capacity), s, None)
  }

  lemma StayHere(s: State, gone: Option<bool>)
    requires gone.Some? ==> LeftAlone(s, gone.value)
    ensures Leads(s, s, gone)
  {
    assert PathTo(s, [s], [], s, gone);
  }

  lemma GoOn(start: State, s: State, a: Action, s': State, gone: Option<bool>)
    requires Leads(start, s, gone)
    requires Can(s, a) && s' == Do(s, a)
    requires gone.Some? ==> LeftAlone(s', gone.value)
    ensures Leads(start, s', gone)
  {
    var states: seq<State>, acts: seq<Action> :| PathTo(start, states, acts, s, gone);
    var states', acts' := states + [s'], acts + [a];
    forall i | 0 <= i < |acts'| ensures Step(states'[i], acts'[i], states'[i + 1]) {
      if i < |acts| {
        assert Step(states[i], acts[i], states[i + 1]);
      } else {
        assert states'[i] == s && states'[i + 1] == s' && acts'[i] == a;
      }
    }
    assert PathTo(start, states', acts', s', gone);
  }

  lemma LeadsFurther(start: State, s: State, t: State)
    requires Leads(start, s, None) && Leads(s, t, None)
    ensures Leads(start, t, None)
  {
    var states1: seq<State>, acts1: seq<Action> :| PathTo(start, states1, acts1, s, None);
    var states2: seq<State>, acts2: seq<Action> :| PathTo(s, states2, acts2, t, None);
    var states, acts := states1 + states2[1..], acts1 + acts2;
    var k := |acts1|;
    forall i | 0 <= i < |acts| ensures Step(states[i], acts[i], states[i + 1]) {
      if i < k {
        assert Step(states1[i], acts1[i], states1[i + 1]);
      } else {
        assert Step(states2[i - k], acts2[i - k], states2[i - k + 1]);
        assert states[i] == states2[i - k] && states[i + 1] == states2[i - k + 1];
      }
    }
    assert PathTo(start, states, acts, t, None);
  }

  lemma Go(capacity: nat, s: State, a: Action, s': State)
    requires Reaches(capacity, s)
    requires Can(s, a) && s' == Do(s, a)
    ensures Reaches(capacity, s')
  {
    GoOn(Init(capacity), s, a, s', None);
  }

  // ----- Pieces of runs -----------------------------------------------------------------------

  /** `s` with call `c` at `pc` and the mutex with `owner`. */
  function Put(s: State, c: CallId, op: Op, h: HandleId, pc: Pc, owner: Option<CallId>): State {
    s.(calls := s.calls[c := Call(op, h, pc)], owner := owner)
  }

  /** The channel itself (0), one sender (1) and one receiver (2), these two at home or in another process. */
  function Pair(home: bool): map<HandleId, Handle> {
    map[0 := Handle(Plain, true, 0, Live), 1 := Handle(OfSender, home, 0, Live), 2 := Handle(OfReceiver, home, 0, Live)]
  }

  const PAIR: map<HandleId, Handle> := Pair(true)

  /** A new channel with such a pair. */
  function WithPair(capacity: nat, home: bool): State {
    Init(capacity).(senders := 1, receivers := 1, refs := if home then 3 else 1, handles := Pair(home))
  }

  function WithHandle(s: State, h: HandleId, kind: Kind, home: bool, phase: Phase): State {
    s.(handles := s.handles[h := Handle(kind, home, 0, phase)])
  }

  /** `s` with a new peer `h`. */
  function WithPeer(s: State, h: HandleId, kind: Kind, home: bool): State {
    WithCount(WithRef(WithHandle(s, h, kind, home, Live), home), kind, Count(s, kind) + 1)
  }

  function WithRef(s: State, home: bool): State {
    s.(refs := if home then s.refs + 1 else s.refs)
  }

  lemma MakesPeer(capacity: nat, s: State, h: HandleId, kind: Kind, home: bool)
    requires Reaches(capacity, s) && kind != Plain
    requires !s.freed && h !in s.handles && 0 in s.handles && s.handles[0] == Handle(Plain, true, 0, Live)
    ensures Reaches(capacity, WithPeer(s, h, kind, home))
  {
    var s1 := WithHandle(s, h, kind, home, Cloning);
    Go(capacity, s, Clone(h, kind, home, 0), s1);
    Go(capacity, s1, AddRef(h), WithRef(WithHandle(s, h, kind, home, Joining), home));
    PeerJoins(capacity, s, h, kind, home);
  }

  lemma PeerJoins(capacity: nat, s: State, h: HandleId, kind: Kind, home: bool)
    requires kind != Plain && !s.freed
    requires Reaches(capacity, WithRef(WithHandle(s, h, kind, home, Joining), home))
    ensures Reaches(capacity, WithPeer(s, h, kind, home))
  {
    var joining := WithRef(WithHandle(s, h, kind, home, Joining), home);
    Go(capacity, joining, AddPeer(h), WithPeer(s, h, kind, home));
  }

  lemma PairIsReached(capacity: nat, home: bool)
    ensures Reaches(capacity, WithPair(capacity, home))
  {
    StayHere(Init(capacity), None);
    MakesPeer(capacity, Init(capacity), 1, OfSender, home);
    var s1 := WithPeer(Init(capacity), 1, OfSender, home);
    MakesPeer(capacity, s1, 2, OfReceiver, home);
    assert WithPeer(s1, 2, OfReceiver, home).handles == Pair(home);
    assert WithPeer(s1, 2, OfReceiver, home) == WithPair(capacity, home);
  }

  /** The mutex is free and call `c` of `op` may start on handle `h`. */
  ghost predicate Idle(s: State, c: CallId, op: Op, h: HandleId) {
    && !s.freed && !s.dropping && s.owner == None && c !in s.calls
    && h in s.handles && s.handles[h].phase == Live && s.handles[h].kind == KindFor(op)
  }

  lemma StartAndLock(capacity: nat, s: State, c: CallId, op: Op, h: HandleId)
    requires Reaches(capacity, s) && Idle(s, c, op, h)
    requires op != Receive(Once)
    ensures Reaches(capacity, Put(s, c, op, h, CheckQueue(false), Some(c)))
  {
    var s1 := Put(s, c, op, h, Entry, None);
    Go(capacity, s, Start(c, op, h), s1);
    var s2 := Put(s, c, op, h, Locking, None);
    Go(capacity, s1, Read(c), s2);
    Go(capacity, s2, Lock(c), Put(s, c, op, h, CheckQueue(false), Some(c)));
  }

  /** One read of a call that holds the mutex. */
  lemma Reads(capacity: nat, s: State, c: CallId, op: Op, h: HandleId, pc: Pc, pc': Pc)
    requires Reaches(capacity, Put(s, c, op, h, pc, Some(c))) && !s.freed
    requires IsRead(pc) && pc' == AfterRead(s, op, pc) && !pc'.Unlock?
    ensures Reaches(capacity, Put(s, c, op, h, pc', Some(c)))
  {
    ReadAlone(s, op, pc, Put(s, c, op, h, pc, Some(c)));
    ReadResult(Put(s, c, op, h, pc, Some(c)), c, pc');
    Go(capacity, Put(s, c, op, h, pc, Some(c)), Read(c), Put(s, c, op, h, pc', Some(c)));
  }

  /** What is read does not depend on the calls. */
  lemma ReadAlone(s: State, op: Op, pc: Pc, t: State)
    requires IsRead(pc) && t == s.(calls := t.calls, owner := t.owner)
    ensures AfterRead(t, op, pc) == AfterRead(s, op, pc)
  {
  }

  lemma ReadResult(s: State, c: CallId, pc': Pc)
    requires c in s.calls && IsRead(s.calls[c].pc) && pc' == AfterRead(s, s.calls[c].op, s.calls[c].pc) && !pc'.Unlock?
    ensures DoRead(s, c) == MoveTo(s, c, pc')
  {
  }

  lemma ChecksClosingAndSleeps(capacity: nat, s: State, c: CallId, op: Op, h: HandleId)
    requires Reaches(capacity, Put(s, c, op, h, CheckClosing(false), Some(c)))
    requires !s.freed && !s.dropping
    ensures Reaches(capacity, Put(s, c, op, h, Sleeping, None))
  {
    Reads(capacity, s, c, op, h, CheckClosing(false), GoToSleep);
    Go(capacity, Put(s, c, op, h, GoToSleep, Some(c)), Sleep(c), Put(s, c, op, h, Sleeping, None));
  }

  /** Up to the last check before sleeping. */
  lemma ComesToCheckClosing(capacity: nat, s: State, c: CallId, op: Op, h: HandleId)
    requires Reaches(capacity, s) && Idle(s, c, op, h) && !Ready(s, op)
    requires op.WaitForMessage? || (op.mode != Once && Peers(s, op.Send?) > 0)
    ensures Reaches(capacity, Put(s, c, op, h, CheckClosing(false), Some(c)))
  {
    StartAndLock(capacity, s, c, op, h);
    if op.WaitForMessage? {
      Reads(capacity, s, c, op, h, CheckQueue(false), CheckClosing(false));
    } else {
      Reads(capacity, s, c, op, h, CheckQueue(false), CheckPeers(false));
      Reads(capacity, s, c, op, h, CheckPeers(false), CheckClosing(false));
    }
  }

  // ----- A send -------------------------------------------------------------------------------

  function Pushed(s: State, c: CallId, item: int, room: nat): State {
    s.(queue := s.queue + [Msg(c, item)], pushed := s.pushed + [Msg(c, item)], room := room)
  }

  /** `s` after call `c` has sent `item` and its signal has woken `chosen`. */
  function AfterSend(s: State, c: CallId, item: int, room: nat, chosen: set<CallId>): State {
    Put(Pushed(s, c, item, room).(calls := WakeCalls(s.calls, chosen)), c, Send(Forever, item), 1, Done(Sent), None)
  }

  lemma Sends(capacity: nat, s: State, c: CallId, item: int, chosen: set<CallId>)
    requires Reaches(capacity, s) && Idle(s, c, Send(Forever, item), 1) && |s.queue| < s.room
    requires s.receivers > 0
    requires chosen <= Sleepers(s, false) && (Sleepers(s, false) != {} ==> chosen != {})
    ensures Reaches(capacity, AfterSend(s, c, item, s.room, chosen))
  {
    var op := Send(Forever, item);
    StartAndLock(capacity, s, c, op, 1);
    Reads(capacity, s, c, op, 1, CheckQueue(false), RecheckPeers(QueueReady));
    Reads(capacity, s, c, op, 1, RecheckPeers(QueueReady), RecheckClosing(QueueReady));
    Reads(capacity, s, c, op, 1, RecheckClosing(QueueReady), Act(QueueReady));
    var s7 := Put(Pushed(s, c, item, s.room), c, op, 1, Notify(Sent), Some(c));
    Go(capacity, Put(s, c, op, 1, Act(QueueReady), Some(c)), PushOrPop(c), s7);
    SignalAndRelease(capacity, Pushed(s, c, item, s.room), c, item, chosen);
  }

  lemma SignalAndRelease(capacity: nat, t: State, c: CallId, item: int, chosen: set<CallId>)
    requires !t.freed && c !in t.calls
    requires Reaches(capacity, Put(t, c, Send(Forever, item), 1, Notify(Sent), Some(c)))
    requires chosen <= Sleepers(t, false) && (Sleepers(t, false) != {} ==> chosen != {})
    ensures Reaches(capacity, Put(t.(calls := WakeCalls(t.calls, chosen)), c, Send(Forever, item), 1, Done(Sent), None))
  {
    var op := Send(Forever, item);
    var s7 := Put(t, c, op, 1, Notify(Sent), Some(c));
    assert Sleepers(s7, false) == Sleepers(t, false);
    var u := t.(calls := WakeCalls(t.calls, chosen));
    var s8 := Put(u, c, op, 1, Unlock(Sent), Some(c));
    SignalResult(s7, c, op, chosen, s8, t.calls);
    Go(capacity, s7, Signal(c, chosen), s8);
    SenderReleases(capacity, u, c, op);
  }

  lemma SenderReleases(capacity: nat, u: State, c: CallId, op: Op)
    requires !u.freed && Reaches(capacity, Put(u, c, op, 1, Unlock(Sent), Some(c)))
    ensures Reaches(capacity, Put(u, c, op, 1, Done(Sent), None))
  {
    Go(capacity, Put(u, c, op, 1, Unlock(Sent), Some(c)), Release(c), Put(u, c, op, 1, Done(Sent), None));
  }

  lemma SignalResult(s7: State, c: CallId, op: Op, chosen: set<CallId>, s8: State, calls: map<CallId, Call>)
    requires c !in calls && c !in chosen
    requires s7.calls == calls[c := Call(op, 1, Notify(Sent))]
    requires Can(s7, Signal(c, chosen))
    requires s8 == s7.(calls := WakeCalls(calls, chosen)[c := Call(op, 1, Unlock(Sent))])
    ensures s8 == Do(s7, Signal(c, chosen))
  {
    assert s8.calls == Do(s7, Signal(c, chosen)).calls;
  }

  // ----- A peer that is dropped, and one that reappears ---------------------------------------

  /** The pair with value `h` on its way out. */
  function Leaving(s: State, h: HandleId, count: nat, refs: int, phase: Phase): State
    requires h in PAIR
  {
    WithCount(s.(refs := refs, handles := PAIR[h := PAIR[h].(phase := phase)]), PAIR[h].kind, count)
  }

  /** `s` after its only sender (1) or receiver (2) was dropped. */
  function Dropped(s: State, h: HandleId): State
    requires h in PAIR
  {
    Leaving(s, h, 0, 2, Gone)
  }

  lemma PeerIsDropped(capacity: nat, s: State, h: HandleId)
    requires Reaches(capacity, s) && !s.freed && (h == 1 || h == 2)
    requires s.handles == PAIR && Count(s, PAIR[h].kind) == 1 && s.refs == 3 && Sleepers(s, h == 2) == {}
    requires forall c :: c in s.calls ==> s.calls[c].pc.Done? || s.calls[c].handle != h
    ensures Reaches(capacity, Dropped(s, h))
  {
    assert !Borrowed(s, h);
    assert Do(s, Drop(h)) == Leaving(s, h, 1, 3, Counting);
    Go(capacity, s, Drop(h), Leaving(s, h, 1, 3, Counting));
    PeerIsUncounted(capacity, s, h);
    PeerIsReleased(capacity, s, h);
  }

  lemma PairMoves(h: HandleId, phase: Phase, next: Phase)
    requires h in PAIR
    ensures PAIR[h := PAIR[h].(phase := phase)][h := PAIR[h].(phase := next)] == PAIR[h := PAIR[h].(phase := next)]
  {
  }

  lemma LeavingMoves(s: State, h: HandleId, count: nat, refs: int, phase: Phase, next: Phase)
    requires h in PAIR
    ensures SetPhase(Leaving(s, h, count, refs, phase), h, next) == Leaving(s, h, count, refs, next)
  {
    PairMoves(h, phase, next);
  }

  lemma PeerIsUncounted(capacity: nat, s: State, h: HandleId)
    requires !s.freed && (h == 1 || h == 2)
    requires Reaches(capacity, Leaving(s, h, 1, 3, Counting))
    ensures Reaches(capacity, Leaving(s, h, 0, 3, Waking))
  {
    LeavingMoves(s, h, 1, 3, Counting, Swapping(1));
    Go(capacity, Leaving(s, h, 1, 3, Counting), LoadCount(h), Leaving(s, h, 1, 3, Swapping(1)));
    LeavingMoves(s, h, 1, 3, Swapping(1), Waking);
    Go(capacity, Leaving(s, h, 1, 3, Swapping(1)), SwapOk(h), Leaving(s, h, 0, 3, Waking));
  }

  lemma NobodyToWake(s: State, space: bool)
    requires Sleepers(s, space) == {}
    ensures WakeAll(s, space) == s
  {
    assert WakeCalls(s.calls, {}) == s.calls;
  }

  lemma PeerIsReleased(capacity: nat, s: State, h: HandleId)
    requires !s.freed && (h == 1 || h == 2) && Sleepers(s, h == 2) == {}
    requires Reaches(capacity, Leaving(s, h, 0, 3, Waking))
    ensures Reaches(capacity, Dropped(s, h))
  {
    LeavingMoves(s, h, 0, 3, Waking, Releasing);
    NobodyToWake(Leaving(s, h, 0, 3, Releasing), h == 2);
    Go(capacity, Leaving(s, h, 0, 3, Waking), Broadcast(h), Leaving(s, h, 0, 3, Releasing));
    LastReference(capacity, s, h);
  }

  lemma LastReference(capacity: nat, s: State, h: HandleId)
    requires !s.freed && (h == 1 || h == 2)
    requires Reaches(capacity, Leaving(s, h, 0, 3, Releasing))
    ensures Reaches(capacity, Dropped(s, h))
  {
    LeavingMoves(s, h, 0, 3, Releasing, Gone);
    Go(capacity, Leaving(s, h, 0, 3, Releasing), DropRef(h), Dropped(s, h));
  }

  /** A call about to read that it has no peers, a new peer (3) in between, and it goes on to act. */
  lemma PeerReappears(capacity: nat, s: State, c: CallId, op: Op, h: HandleId)
    requires Reaches(capacity, s) && Idle(s, c, op, h) && !Ready(s, op) && Peers(s, op.Send?) == 0
    requires !op.WaitForMessage? && op.mode != Once && op != Receive(Forever)
    requires 0 in s.handles && s.handles[0] == Handle(Plain, true, 0, Live) && 3 !in s.handles
    ensures Reaches(capacity, Put(WithPeer(s, 3, PeerKind(op.Send?), true), c, op, h, Act(PeersGone), Some(c)))
  {
    StartAndLock(capacity, s, c, op, h);
    Reads(capacity, s, c, op, h, CheckQueue(false), CheckPeers(false));
    Reads(capacity, s, c, op, h, CheckPeers(false), RecheckPeers(PeersGone));
    var kind := PeerKind(op.Send?);
    var giving := Put(s, c, op, h, RecheckPeers(PeersGone), Some(c));
    MakesPeer(capacity, giving, 3, kind, true);
    var t := WithPeer(s, 3, kind, true);
    assert WithPeer(giving, 3, kind, true) == Put(t, c, op, h, RecheckPeers(PeersGone), Some(c));
    Reads(capacity, t, c, op, h, RecheckPeers(PeersGone), RecheckClosing(PeersGone));
    Reads(capacity, t, c, op, h, RecheckClosing(PeersGone), Act(PeersGone));
  }
}
