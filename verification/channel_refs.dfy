/**
 Why the channel's machine may take a reference, and give one back, in one step: in the creating
 process the interleaved steps of `increase` and `decrease` refine `AddRef` and `DropRef`.
 */
module ChannelRefs {
  import opened Channel
  import Rc = ProcessRc

  /** The step at which a call takes effect: the addition of an `increase`, the subtraction of a `decrease`. */
  ghost predicate TakesEffect(s: Rc.State, a: Rc.Action) {
    a.Step? && a.t in s.threads && (s.threads[a.t].IncAdd? || s.threads[a.t].DecSub?)
  }

  /** What `AddRef` of a value at home does to the reference counter. */
  lemma AddRefAtHome(s: State, h: HandleId)
    requires h in s.handles && s.handles[h].home && s.handles[h].phase == Cloning
    ensures DoMake(s, AddRef(h)).refs == s.refs + 1
  {
  }

  /** What `DropRef` of a value at home does to the reference counter, and where the drop goes from there. */
  lemma DropRefAtHome(s: State, h: HandleId)
    requires h in s.handles && s.handles[h].home && s.handles[h].phase == Releasing
    ensures DoWindDown(s, DropRef(h)).refs == s.refs - 1
    ensures DoWindDown(s, DropRef(h)).handles[h].phase == if s.refs == 1 then StoreDropping else Gone
  {
  }

  /**
     With equal counters, every step of the component in the creating process is silent, its call not
     over and the counter unchanged, or it is the atomic step of the machine: the same counter
     afterwards, its call over, and for a `decrease` the answer that the machine's drop acts on.
   */
  lemma StepsRefineMachine(c: int, me: int, states: seq<Rc.State>, acts: seq<Rc.Action>, i: nat, m: State, h: HandleId)
    requires Rc.IsRun(c, me, me, states, acts) && i < |acts|
    requires m.refs == states[i].counter && h in m.handles && m.handles[h].home
    ensures var s, s', t := states[i], states[i + 1], acts[i].t;
            if !TakesEffect(s, acts[i]) then s'.counter == s.counter && t in s'.threads && !Rc.IsOver(s'.threads[t])
            else if s.threads[t].IncAdd? then
              && s'.threads[t] == Rc.Increased
              && (m.handles[h].phase == Cloning ==> s'.counter == DoMake(m, AddRef(h)).refs)
            else
              && (s'.threads[t] == Rc.LastOne(true) || s'.threads[t] == Rc.MoveAlong)
              && (m.handles[h].phase == Releasing ==>
                    && s'.counter == DoWindDown(m, DropRef(h)).refs
                    && DoWindDown(m, DropRef(h)).handles[h].phase
                       == if s'.threads[t] == Rc.LastOne(true) then StoreDropping else Gone)
  {
    Rc.HomeCounterIsExact(c, me, states, acts, i);
    if m.handles[h].phase == Cloning {
      AddRefAtHome(m, h);
    }
    if m.handles[h].phase == Releasing {
      DropRefAtHome(m, h);
    }
  }
}
