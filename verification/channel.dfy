/**
 The channel protocol of `src/channel.rs` with the wait loops of `src/condvar.rs`, as a state
 machine whose steps are single atomic reads and writes. Any number of calls run at once; each
 call of an operation is one thread of control with its own program counter. Values made in the
 process that created the channel are `home`; others live in forked children, whose copies of the
 reference counter never reach the owner. The machine stops when the queue is freed.
 */
module Channel {
  import opened Wrappers

  type CallId = nat
  type HandleId = nat

  /** An item in the queue, with the call that sent it. */
  datatype Msg = Msg(call: CallId, item: int)

  /** `receive`/`try_send`, `try_receive_until`/`try_send_until`, `try_receive_once`/`try_send_once`. */
  datatype Mode = Forever | Until | Once

  datatype Op =
    | Receive(mode: Mode)
    | Send(mode: Mode, item: int)
    | WaitForMessage

  datatype Outcome =
    | Received(msg: Msg)
    | NoItem                    // `receive` returns `None`
    | NoSenders
    | ReceiveTimedOut
    | Sent
    | Refused(item: int)        // `Err(item)` or `NoReceivers(item)`
    | SendTimedOut(item: int)
    | MessageThere
    | WaitTimedOut
    | QueueDropped
    | Panicked                  // an `expect` failed

  /** Which disjunct of the wait predicate ended the wait; `Unwaited` for `try_receive_once`. */
  datatype Why = QueueReady | PeersGone | Closing | Unwaited

  datatype Pc =
    | Entry                        // load `dropping`
    | Locking
    | CheckQueue(expired: bool)    // the wait predicate, one disjunct a step
    | CheckPeers(expired: bool)
    | CheckClosing(expired: bool)
    | GoToSleep
    | Sleeping
    | Woken(expired: bool)         // must take the mutex again
    | RecheckPeers(why: Why)       // the reads after the wait
    | RecheckClosing(why: Why)
    | Act(why: Why)                // push or pop
    | Notify(outcome: Outcome)
    | Unlock(outcome: Outcome)
    | Done(outcome: Outcome)

  datatype Call = Call(op: Op, handle: HandleId, pc: Pc)

  datatype Kind = Plain | OfSender | OfReceiver

  datatype Phase =
    | Cloning                      // `references.increase()` pending
    | Joining                      // `senders`/`receivers` `fetch_add` pending
    | Live
    | Counting                     // `atomic_checked_sub`: load
    | Swapping(seen: nat)          // `atomic_checked_sub`: compare-and-exchange
    | Waking                       // count reached zero: broadcast
    | Releasing                    // `references.decrease()`
    | StoreDropping                // destruction, step by step
    | SwapReceivers
    | SwapSenders(receivers: nat)
    | WakeReceivers(receivers: nat, senders: nat)
    | WakeSenders(senders: nat)
    | LastLock
    | Destroyed
    | Gone

  /** A `Channel` value, on its own or inside a `Sender` or `Receiver`; `source` is what it is cloned from. */
  datatype Handle = Handle(kind: Kind, home: bool, source: HandleId, phase: Phase)

  /**
   `room` is the queue's current capacity. The last five fields are histories: what was pushed and
   popped and by whom, and how many calls left an item (or free room) behind without using it.
   */
  datatype State = State(
    capacity: nat, room: nat, queue: seq<Msg>,
    owner: Option<CallId>,
    senders: nat, receivers: nat, dropping: bool, refs: int, freed: bool,
    handles: map<HandleId, Handle>, calls: map<CallId, Call>,
    pushed: seq<Msg>, popped: seq<Msg>, takers: seq<CallId>, strayItems: nat, strayRoom: nat)

  /** `Channel::new`: one plain value, nothing queued. */
  function Init(capacity: nat): State {
    State(capacity, capacity, [], None, 0, 0, false, 1, false,
          map[0 := Handle(Plain, true, 0, Live)], map[], [], [], [], 0, 0)
  }

  // ----- What a call does next ----------------------------------------------------------------

  /** The disjunct of the wait predicate about the queue itself. */
  predicate Ready(s: State, op: Op) {
    if op.Send? then |s.queue| < s.room else |s.queue| > 0
  }

  /** The counter that `kind` belongs to. */
  function Count(s: State, kind: Kind): nat {
    if kind == OfSender then s.senders else s.receivers
  }

  /** Senders have receivers for peers, and receivers senders. */
  function PeerKind(sending: bool): Kind {
    if sending then OfReceiver else OfSender
  }

  function Peers(s: State, sending: bool): nat {
    Count(s, PeerKind(sending))
  }

  predicate Timed(op: Op) {
    op.WaitForMessage? || op.mode == Until
  }

  function OnTimeout(op: Op): Outcome {
    match op
    case Receive(_) => ReceiveTimedOut
    case Send(_, item) => SendTimedOut(item)
    case WaitForMessage => WaitTimedOut
  }

  /** The answer when `dropping` is seen before locking. */
  function OnClosed(op: Op): Outcome {
    match op
    case Receive(mode) => if mode == Forever then NoItem else NoSenders
    case Send(_, item) => Refused(item)
    case WaitForMessage => QueueDropped
  }

  /** The answer when the reads after the wait find no peers, or `dropping`. */
  function OnNoPeers(op: Op): Outcome {
    if op.Send? then Refused(op.item) else NoSenders
  }

  function AfterWait(op: Op, why: Why): Pc {
    match op
    case WaitForMessage => Unlock(MessageThere)
    case Receive(mode) => if mode == Forever then Act(why) else RecheckPeers(why)
    case Send(_, _) => RecheckPeers(why)
  }

  predicate IsRead(pc: Pc) {
    pc.Entry? || pc.CheckQueue? || pc.CheckPeers? || pc.CheckClosing? || pc.RecheckPeers? || pc.RecheckClosing?
  }

  /** A step that only reads shared memory: where the call goes from there. */
  function AfterRead(s: State, op: Op, pc: Pc): Pc
    requires IsRead(pc)
  {
    match pc
    case Entry => if s.dropping then Done(OnClosed(op)) else Locking
    case CheckQueue(expired) =>
      if Ready(s, op) then AfterWait(op, QueueReady)
      else if op.WaitForMessage? then CheckClosing(expired)
      else if op.mode == Once then Unlock(OnTimeout(op))
      else CheckPeers(expired)
    case CheckPeers(expired) =>
      if Peers(s, op.Send?) == 0 then AfterWait(op, PeersGone) else CheckClosing(expired)
    case CheckClosing(expired) =>
      if s.dropping then AfterWait(op, Closing)
      else if expired then Unlock(OnTimeout(op))
      else GoToSleep
    case RecheckPeers(why) =>
      if Peers(s, op.Send?) == 0 then Unlock(OnNoPeers(op)) else RecheckClosing(why)
    case RecheckClosing(why) =>
      if s.dropping then Unlock(OnNoPeers(op))
      else if op == Receive(Once) then Unlock(ReceiveTimedOut)
      else Act(why)
  }

  function AfterLock(op: Op): Pc {
    if op == Receive(Once) then Act(Unwaited) else CheckQueue(false)
  }

  /** `pop` on an empty queue. */
  function AfterEmptyPop(mode: Mode): Pc {
    match mode
    case Forever => Unlock(NoItem)
    case Until => Unlock(Panicked)
    case Once => RecheckPeers(Unwaited)
  }

  /** The mutex is held at these points. */
  predicate Holds(pc: Pc) {
    pc.CheckQueue? || pc.CheckPeers? || pc.CheckClosing? || pc.GoToSleep? || pc.RecheckPeers?
    || pc.RecheckClosing? || pc.Act? || pc.Notify? || pc.Unlock?
  }

  // ----- Condition variables ------------------------------------------------------------------

  /** Asleep on `space_maybe_available` (senders) or on `item_maybe_available` (all others). */
  predicate AsleepOn(call: Call, space: bool) {
    call.pc == Sleeping && call.op.Send? == space
  }

  function Sleepers(s: State, space: bool): set<CallId> {
    set c | c in s.calls && AsleepOn(s.calls[c], space)
  }

  function WakeCalls(calls: map<CallId, Call>, chosen: set<CallId>): map<CallId, Call> {
    map c | c in calls :: if c in chosen then calls[c].(pc := Woken(false)) else calls[c]
  }

  // ----- Steps --------------------------------------------------------------------------------

  datatype Action =
    | Start(c: CallId, op: Op, h: HandleId)
    | Read(c: CallId)
    | Lock(c: CallId)
    | LockFails(c: CallId)                       // busy, or not locked in time
    | Sleep(c: CallId)                           // releases the mutex and sleeps, atomically
    | Wake(c: CallId)                            // spurious
    | Expire(c: CallId)                          // ETIMEDOUT
    | Reacquire(c: CallId)
    | PushOrPop(c: CallId)
    | Grow(c: CallId, room: nat)                 // a full queue reallocates
    | GrowFails(c: CallId)                       // or cannot
    | Signal(c: CallId, chosen: set<CallId>)     // wakes at least one sleeper, if any
    | Release(c: CallId)
    | Clone(h: HandleId, kind: Kind, home: bool, source: HandleId)
    | AddRef(h: HandleId)
    | AddPeer(h: HandleId)
    | Drop(h: HandleId)
    | LoadCount(h: HandleId)
    | SwapOk(h: HandleId)
    | SwapFails(h: HandleId)                     // changed, or spurious
    | Broadcast(h: HandleId)
    | DropRef(h: HandleId)
    | Destroy(h: HandleId)                       // one step of the destruction

  /** Borrowed by a running call or by a clone being made. */
  predicate Borrowed(s: State, h: HandleId) {
    || (exists c :: c in s.calls && s.calls[c].handle == h && !s.calls[c].pc.Done?)
    || (exists g :: g in s.handles && s.handles[g].home && s.handles[g].source == h
                 && (s.handles[g].phase == Cloning || s.handles[g].phase == Joining))
  }

  function KindFor(op: Op): Kind {
    if op.Send? then OfSender else OfReceiver
  }

  predicate IsDestruction(phase: Phase) {
    phase.StoreDropping? || phase.SwapReceivers? || phase.SwapSenders? || phase.WakeReceivers?
    || phase.WakeSenders? || phase.LastLock?
  }

  /** Steps of calls; the others are steps of handles. */
  predicate IsCallAction(a: Action) {
    a.Start? || a.Read? || a.Lock? || a.LockFails? || a.Sleep? || a.Wake? || a.Expire? || a.Reacquire?
    || a.PushOrPop? || a.Grow? || a.GrowFails? || a.Signal? || a.Release?
  }

  predicate IsMaking(a: Action) {
    a.Clone? || a.AddRef? || a.AddPeer? || a.Drop?
  }

  predicate CanCall(s: State, a: Action)
    requires IsCallAction(a)
  {
    match a
    case Start(c, op, h) =>
      c !in s.calls && h in s.handles && s.handles[h].phase == Live && s.handles[h].kind == KindFor(op)
    case Read(c) => c in s.calls && IsRead(s.calls[c].pc)
    case Lock(c) => c in s.calls && s.calls[c].pc == Locking && s.owner == None
    case LockFails(c) =>
      c in s.calls && s.calls[c].pc == Locking
      && (!s.calls[c].op.WaitForMessage? && s.calls[c].op.mode == Once ==> s.owner != None)
    case Sleep(c) => c in s.calls && s.calls[c].pc == GoToSleep
    case Wake(c) => c in s.calls && s.calls[c].pc == Sleeping
    case Expire(c) => c in s.calls && s.calls[c].pc == Sleeping && Timed(s.calls[c].op)
    case Reacquire(c) => c in s.calls && s.calls[c].pc.Woken? && s.owner == None
    case PushOrPop(c) =>
      c in s.calls && s.calls[c].pc.Act?
      && (s.calls[c].op.Receive? || (s.calls[c].op.Send? && |s.queue| < s.room))
    case Grow(c, room) => c in s.calls && s.calls[c].pc.Act? && s.calls[c].op.Send? && s.room <= |s.queue| < room
    case GrowFails(c) => c in s.calls && s.calls[c].pc.Act? && s.calls[c].op.Send? && s.room <= |s.queue|
    case Signal(c, chosen) =>
      c in s.calls && s.calls[c].pc.Notify?
      && var asleep := Sleepers(s, !s.calls[c].op.Send?);
         chosen <= asleep && (asleep != {} ==> chosen != {})
    case Release(c) => c in s.calls && s.calls[c].pc.Unlock?
  }

  predicate CanHandle(s: State, a: Action)
    requires !IsCallAction(a)
  {
    match a
    case Clone(h, _, home, source) =>
      h !in s.handles && (home ==> source in s.handles && s.handles[source].home && s.handles[source].phase == Live)
    case AddRef(h) => h in s.handles && s.handles[h].phase == Cloning
    case AddPeer(h) => h in s.handles && s.handles[h].phase == Joining
    case Drop(h) => h in s.handles && s.handles[h].phase == Live && !Borrowed(s, h)
    case LoadCount(h) => h in s.handles && s.handles[h].phase == Counting
    case SwapOk(h) =>
      h in s.handles && s.handles[h].phase.Swapping?
      && Count(s, s.handles[h].kind) == s.handles[h].phase.seen > 0
    case SwapFails(h) => h in s.handles && s.handles[h].phase.Swapping?
    case Broadcast(h) => h in s.handles && s.handles[h].phase == Waking
    case DropRef(h) => h in s.handles && s.handles[h].phase == Releasing
    case Destroy(h) => h in s.handles && IsDestruction(s.handles[h].phase)
  }

  predicate Can(s: State, a: Action) {
    !s.freed && if IsCallAction(a) then CanCall(s, a) else CanHandle(s, a)
  }

  function WithCount(s: State, kind: Kind, n: nat): State {
    if kind == OfSender then s.(senders := n) else s.(receivers := n)
  }

  function MoveTo(s: State, c: CallId, pc: Pc): State
    requires c in s.calls
  {
    s.(calls := s.calls[c := s.calls[c].(pc := pc)])
  }

  function SetPhase(s: State, h: HandleId, phase: Phase): State
    requires h in s.handles
  {
    s.(handles := s.handles[h := s.handles[h].(phase := phase)])
  }

  function WakeAll(s: State, space: bool): State {
    s.(calls := WakeCalls(s.calls, Sleepers(s, space)))
  }

  /** What `atomic_checked_sub` does with a value just read: give up at zero, else try to swap. */
  function AfterSeen(seen: nat): Phase {
    if seen == 0 then Waking else Swapping(seen)
  }

  function DoPush(s: State, c: CallId): State
    requires c in s.calls && s.calls[c].op.Send?
  {
    var msg := Msg(c, s.calls[c].op.item);
    MoveTo(s, c, Notify(Sent)).(queue := s.queue + [msg], pushed := s.pushed + [msg])
  }

  function DoPop(s: State, c: CallId): State
    requires c in s.calls && s.calls[c].op.Receive?
  {
    if s.queue == [] then MoveTo(s, c, AfterEmptyPop(s.calls[c].op.mode))
    else
      MoveTo(s, c, Notify(Received(s.queue[0]))).(queue := s.queue[1..],
        popped := s.popped + [s.queue[0]], takers := s.takers + [c])
  }

  function DoRead(s: State, c: CallId): State
    requires c in s.calls && IsRead(s.calls[c].pc)
  {
    var call := s.calls[c];
    var pc := AfterRead(s, call.op, call.pc);
    var stray := if pc.Unlock? && Ready(s, call.op) then 1 else 0;
    if call.op.Send? then MoveTo(s, c, pc).(strayRoom := s.strayRoom + stray)
    else MoveTo(s, c, pc).(strayItems := s.strayItems + stray)
  }

  function DoDestroy(s: State, h: HandleId): State
    requires h in s.handles && IsDestruction(s.handles[h].phase)
  {
    match s.handles[h].phase
    case StoreDropping => SetPhase(s, h, SwapReceivers).(dropping := true)
    case SwapReceivers => SetPhase(s, h, SwapSenders(s.receivers)).(receivers := 0)
    case SwapSenders(receivers) => SetPhase(s, h, WakeReceivers(receivers, s.senders)).(senders := 0)
    case WakeReceivers(receivers, senders) =>
      if receivers != 0 then WakeAll(SetPhase(s, h, WakeSenders(senders)), false)
      else SetPhase(s, h, WakeSenders(senders))
    case WakeSenders(senders) =>
      if senders != 0 then WakeAll(SetPhase(s, h, LastLock), true)
      else SetPhase(s, h, LastLock)
    case LastLock => SetPhase(s, h, Destroyed).(freed := true)
  }

  function DoCall(s: State, a: Action): State
    requires IsCallAction(a) && CanCall(s, a)
  {
    match a
    case Start(c, op, h) => s.(calls := s.calls[c := Call(op, h, Entry)])
    case Read(c) => DoRead(s, c)
    case Lock(c) => MoveTo(s, c, AfterLock(s.calls[c].op)).(owner := Some(c))
    case LockFails(c) =>
      if !s.calls[c].op.WaitForMessage? && s.calls[c].op.mode == Forever then MoveTo(s, c, Entry)
      else MoveTo(s, c, Done(OnTimeout(s.calls[c].op)))
    case Sleep(c) => MoveTo(s, c, Sleeping).(owner := None)
    case Wake(c) => MoveTo(s, c, Woken(false))
    case Expire(c) => MoveTo(s, c, Woken(true))
    case Reacquire(c) => MoveTo(s, c, CheckQueue(s.calls[c].pc.expired)).(owner := Some(c))
    case PushOrPop(c) => if s.calls[c].op.Send? then DoPush(s, c) else DoPop(s, c)
    case Grow(c, room) => DoPush(s, c).(room := room)
    case GrowFails(c) => MoveTo(s, c, Unlock(Panicked))
    case Signal(c, chosen) =>
      var woken := s.(calls := WakeCalls(s.calls, chosen));
      MoveTo(woken, c, Unlock(s.calls[c].pc.outcome))
    case Release(c) => MoveTo(s, c, Done(s.calls[c].pc.outcome)).(owner := None)
  }

  /** Making a value, and the start of its drop. */
  function DoMake(s: State, a: Action): State
    requires IsMaking(a) && CanHandle(s, a)
  {
    match a
    case Clone(h, kind, home, source) => s.(handles := s.handles[h := Handle(kind, home, source, Cloning)])
    case AddRef(h) =>
      var next := SetPhase(s, h, if s.handles[h].kind == Plain then Live else Joining);
      if s.handles[h].home then next.(refs := s.refs + 1) else next
    case AddPeer(h) =>
      WithCount(SetPhase(s, h, Live), s.handles[h].kind, Count(s, s.handles[h].kind) + 1)
    case Drop(h) => SetPhase(s, h, if s.handles[h].kind == Plain then Releasing else Counting)
  }

  /** The rest of a drop, up to the release of the reference. */
  function DoWindDown(s: State, a: Action): State
    requires !IsCallAction(a) && !IsMaking(a) && !a.Destroy? && CanHandle(s, a)
  {
    match a
    case LoadCount(h) => SetPhase(s, h, AfterSeen(Count(s, s.handles[h].kind)))
    case SwapOk(h) =>
      var left := s.handles[h].phase.seen - 1;
      WithCount(SetPhase(s, h, if left == 0 then Waking else Releasing), s.handles[h].kind, left)
    case SwapFails(h) => SetPhase(s, h, AfterSeen(Count(s, s.handles[h].kind)))
    case Broadcast(h) => WakeAll(SetPhase(s, h, Releasing), s.handles[h].kind == OfReceiver)
    case DropRef(h) =>
      if !s.handles[h].home then SetPhase(s, h, Gone)
      else if s.refs == 1 then SetPhase(s, h, StoreDropping).(refs := 0)
      else SetPhase(s, h, Gone).(refs := s.refs - 1)
  }

  function DoHandle(s: State, a: Action): State
    requires !IsCallAction(a) && CanHandle(s, a)
  {
    if IsMaking(a) then DoMake(s, a) else if a.Destroy? then DoDestroy(s, a.h) else DoWindDown(s, a)
  }

  function Do(s: State, a: Action): State
    requires Can(s, a)
  {
    if IsCallAction(a) then DoCall(s, a) else DoHandle(s, a)
  }

  // ----- Runs ---------------------------------------------------------------------------------

  ghost predicate Step(s: State, a: Action, s': State) {
    Can(s, a) && s' == Do(s, a)
  }

  /** `states[i + 1]` is `states[i]` after `acts[i]`. */
  ghost predicate IsPath(states: seq<State>, acts: seq<Action>) {
    && |states| == |acts| + 1
    && forall i :: 0 <= i < |acts| ==> Step(states[i], acts[i], states[i + 1])
  }

  /** A path that starts from a new channel. */
  ghost predicate IsRun(capacity: nat, states: seq<State>, acts: seq<Action>) {
    IsPath(states, acts) && states[0] == Init(capacity)
  }

  /** What each step of a stretch of states keeps, the stretch keeps. */
  lemma {:induction false} KeptAlong(states: seq<State>, i: nat, j: nat, holds: State -> bool)
    requires i <= j < |states|
    requires forall m :: i <= m < j && holds(states[m]) ==> holds(states[m + 1])
    requires holds(states[i])
    ensures holds(states[j])
  {
    if i < j {
      KeptAlong(states, i, j - 1, holds);
    }
  }
}
