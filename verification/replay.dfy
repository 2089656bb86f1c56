/**
 Whole runs of requests and returns: the free list answers every request as the bitmap reference
 does, free cells and live blocks always partition the buffer, and what the free list looks like
 depends on nothing but which blocks are out.
 */
module Replay {
  import opened Wrappers
  import opened FiniteSets
  import opened FreeSpaces
  import opened Bitmap
  import opened Runs
  import opened ChunksManager

  /** `GiveBack(n)` returns the n-th block that is out, if there are that many. */
  datatype Action = Take(size: nat) | GiveBack(n: nat)

  /** The reference: free cells and the blocks that are out, in the order they were handed out. */
  datatype World = World(free: set<nat>, taken: seq<FreeSpace>)

  ghost predicate Step(w: World, a: Action, answer: Option<FreeSpace>, w': World) {
    match a
    case Take(size) =>
      && Request(w.free, ChunksFor(size), answer, w'.free)
      && w'.taken == w.taken + if answer.Some? && answer.value.count > 0 then [answer.value] else []
    case GiveBack(n) =>
      && answer == None
      && if n < |w.taken| then
           && w'.free == w.free + w.taken[n].Cells()
           && w'.taken == w.taken[..n] + w.taken[n + 1..]
         else w' == w
  }

  ghost predicate ReferenceRun(max: nat, actions: seq<Action>, answers: seq<Option<FreeSpace>>, worlds: seq<World>) {
    && |worlds| == |actions| + 1 && |answers| == |actions|
    && worlds[0] == World(AllCells(max), [])
    && forall i :: 0 <= i < |actions| ==> Step(worlds[i], actions[i], answers[i], worlds[i + 1])
  }

  ghost predicate Disjoint(s: seq<FreeSpace>) {
    forall i, j :: 0 <= i < j < |s| ==> s[i].Cells() !! s[j].Cells()
  }

  /** Free cells and live blocks are disjoint and together make up the whole buffer. */
  ghost predicate Partition(max: nat, w: World) {
    && (forall i :: 0 <= i < |w.taken| ==> w.taken[i].count > 0)
    && Disjoint(w.taken)
    && CellsOf(w.taken) !! w.free
    && CellsOf(w.taken) + w.free == AllCells(max)
  }

  lemma TakeKeepsPartition(max: nat, w: World, n: nat, answer: Option<FreeSpace>, w': World)
    requires Partition(max, w)
    requires Request(w.free, n, answer, w'.free)
    requires w'.taken == w.taken + if answer.Some? && answer.value.count > 0 then [answer.value] else []
    ensures Partition(max, w')
  {
    if answer.Some? {
      AnswerIsFree(w.free, n, answer.value, w'.free);
      BlockTakenKeepsPartition(max, w, answer.value, w');
    } else {
      assert w'.taken == w.taken;
    }
  }

  lemma BlockTakenKeepsPartition(max: nat, w: World, block: FreeSpace, w': World)
    requires Partition(max, w)
    requires w'.free !! block.Cells() && w'.free + block.Cells() == w.free
    requires w'.taken == w.taken + if block.count > 0 then [block] else []
    ensures Partition(max, w')
  {
    assert block.count == 0 ==> block.Cells() == {};
    forall i | 0 <= i < |w.taken| ensures w.taken[i].Cells() !! block.Cells() {
      assert forall c :: w.taken[i].Has(c) ==> Covered(w.taken, c);
    }
    forall c ensures Covered(w'.taken, c) <==> Covered(w.taken, c) || block.Has(c) {
      assert block.count > 0 ==> block in w'.taken;
      assert forall x :: x in w.taken ==> x in w'.taken;
    }
  }

  lemma CellsWithoutOne(s: seq<FreeSpace>, n: nat)
    requires Disjoint(s) && n < |s|
    ensures CellsOf(s[..n] + s[n + 1..]) == CellsOf(s) - s[n].Cells()
    ensures s[n].Cells() <= CellsOf(s)
  {
    var t := s[..n] + s[n + 1..];
    assert s == s[..n] + [s[n]] + s[n + 1..];
    assert forall x :: x in s <==> x in t || x == s[n];
    assert forall c :: s[n].Has(c) ==> Covered(s, c);
    forall x | x in t ensures x.Cells() !! s[n].Cells() {
      var j :| 0 <= j < |t| && t[j] == x;
      assert t[j] == if j < n then s[j] else s[j + 1];
    }
    forall c ensures Covered(t, c) <==> Covered(s, c) && !s[n].Has(c) {
      if Covered(t, c) {
        var x :| x in t && x.Has(c);
        assert c in x.Cells() && x in s;
      }
    }
  }

  lemma GiveBackKeepsPartition(max: nat, w: World, n: nat, w': World)
    requires Partition(max, w) && n < |w.taken|
    requires w'.free == w.free + w.taken[n].Cells()
    requires w'.taken == w.taken[..n] + w.taken[n + 1..]
    ensures Partition(max, w')
  {
    CellsWithoutOne(w.taken, n);
    assert forall i :: 0 <= i < |w'.taken| ==> w'.taken[i] == if i < n then w.taken[i] else w.taken[i + 1];
  }

  /** Every reachable state of the reference partitions the buffer. */
  lemma {:induction false} RunKeepsPartition(max: nat, actions: seq<Action>, answers: seq<Option<FreeSpace>>,
                                             worlds: seq<World>, i: nat)
    requires ReferenceRun(max, actions, answers, worlds) && i < |worlds|
    ensures Partition(max, worlds[i])
  {
    if i == 0 {
      assert CellsOf([]) == {};
    } else {
      RunKeepsPartition(max, actions, answers, worlds, i - 1);
      assert Step(worlds[i - 1], actions[i - 1], answers[i - 1], worlds[i]);
      match actions[i - 1]
      case Take(size) => TakeKeepsPartition(max, worlds[i - 1], ChunksFor(size), answers[i - 1], worlds[i]);
      case GiveBack(n) => if n < |worlds[i - 1].taken| { GiveBackKeepsPartition(max, worlds[i - 1], n, worlds[i]); }
    }
  }

  /** The reference determines every answer and every state of a run. */
  lemma {:induction false} ReferenceRunIsDeterministic(max: nat, actions: seq<Action>,
      a1: seq<Option<FreeSpace>>, w1: seq<World>, a2: seq<Option<FreeSpace>>, w2: seq<World>, i: nat)
    requires ReferenceRun(max, actions, a1, w1) && ReferenceRun(max, actions, a2, w2)
    requires i < |w1|
    ensures w1[i] == w2[i]
    ensures i > 0 ==> a1[i - 1] == a2[i - 1]
  {
    if i > 0 {
      ReferenceRunIsDeterministic(max, actions, a1, w1, a2, w2, i - 1);
      assert Step(w1[i - 1], actions[i - 1], a1[i - 1], w1[i]);
      assert Step(w2[i - 1], actions[i - 1], a2[i - 1], w2[i]);
      if actions[i - 1].Take? {
        RequestIsDeterministic(w1[i - 1].free, ChunksFor(actions[i - 1].size),
                               a1[i - 1], w1[i].free, a2[i - 1], w2[i].free);
      }
    }
  }

  /** One request or return on the real free list is a step of the reference. */
  method Perform(chunks: Chunks, max: nat, taken: seq<FreeSpace>, action: Action)
      returns (answer: Option<FreeSpace>, taken': seq<FreeSpace>)
    requires chunks.Valid() && chunks.freeChunks.capacity == max
    requires Partition(max, World(chunks.Free(), taken))
    modifies chunks.freeChunks
    ensures chunks.Valid()
    ensures Step(old(World(chunks.Free(), taken)), action, answer, World(chunks.Free(), taken'))
  {
    answer, taken' := None, taken;
    match action {
      case Take(size) =>
        answer := chunks.Get(size);
        if answer.Some? && answer.value.count > 0 {
          taken' := taken + [answer.value];
        }
      case GiveBack(n) =>
        if n < |taken| {
          BlockCanGoBack(max, World(chunks.Free(), taken), n);
          var block := taken[n];
          taken' := taken[..n] + taken[n + 1..];
          ReturnBlock(chunks, block);
        }
    }
  }

  /** The reference gives these answers, and `list` is the canonical list of its free cells at the end. */
  ghost predicate Replayed(max: nat, actions: seq<Action>, answers: seq<Option<FreeSpace>>, worlds: seq<World>,
                           list: seq<FreeSpace>)
  {
    && ReferenceRun(max, actions, answers, worlds)
    && Canonical(list, max) && CellsOf(list) == worlds[|actions|].free
  }

  /**
     Any sequence of requests and returns, on the real free list: the answers are those of the
     reference, and the list at the end is the canonical list of the reference's free cells.
   */
  method ReplayActions(max: nat, actions: seq<Action>)
      returns (answers: seq<Option<FreeSpace>>, list: seq<FreeSpace>)
    requires max > 0
    ensures exists worlds: seq<World> :: Replayed(max, actions, answers, worlds, list)
  {
    var chunks := new Chunks(max);
    var taken: seq<FreeSpace> := [];
    ghost var worlds := [World(AllCells(max), [])];
    answers := [];
    for i := 0 to |actions|
      invariant chunks.Valid() && chunks.freeChunks.capacity == max
      invariant fresh(chunks) && fresh(chunks.freeChunks)
      invariant Tracks(max, actions[..i], answers, worlds, World(chunks.Free(), taken))
    {
      ghost var w := World(chunks.Free(), taken);
      RunKeepsPartition(max, actions[..i], answers, worlds, i);
      var answer;
      answer, taken := Perform(chunks, max, taken, actions[i]);
      ghost var w' := World(chunks.Free(), taken);
      RunExtended(max, actions[..i], answers, worlds, w, actions[i], answer, w');
      assert actions[..i] + [actions[i]] == actions[..i + 1];
      answers, worlds := answers + [answer], worlds + [w'];
    }
    assert actions[..|actions|] == actions;
    list := chunks.freeChunks.items;
    assert Replayed(max, actions, answers, worlds, list);
  }

  ghost predicate Tracks(max: nat, actions: seq<Action>, answers: seq<Option<FreeSpace>>, worlds: seq<World>,
                         now: World)
  {
    ReferenceRun(max, actions, answers, worlds) && worlds[|actions|] == now
  }

  lemma TakenCells(max: nat, w: World, b: FreeSpace)
    requires Partition(max, w) && b in w.taken
    ensures b.Cells() <= CellsOf(w.taken)
  {
    assert forall c :: b.Has(c) ==> Covered(w.taken, c);
  }

  lemma BlockCanGoBack(max: nat, w: World, n: nat)
    requires Partition(max, w) && n < |w.taken|
    ensures var b := w.taken[n];
            b.End() <= max && b.Cells() !! w.free
  {
    var b := w.taken[n];
    TakenCells(max, w, b);
    EndsInside(b, max);
  }

  lemma EndsInside(b: FreeSpace, max: nat)
    requires b.count > 0 && b.Cells() <= AllCells(max)
    ensures b.End() <= max
  {
    assert b.Has(b.End() - 1) && b.End() - 1 in b.Cells();
  }

  lemma WholeChunks(n: nat)
    ensures ChunksFor(n * CHUNK_SIZE) == n
  {
  }

  lemma RunExtended(max: nat, actions: seq<Action>, answers: seq<Option<FreeSpace>>, worlds: seq<World>,
                    now: World, a: Action, answer: Option<FreeSpace>, w: World)
    requires Tracks(max, actions, answers, worlds, now)
    requires Step(now, a, answer, w)
    ensures Tracks(max, actions + [a], answers + [answer], worlds + [w], w)
  {
    var actions', answers', worlds' := actions + [a], answers + [answer], worlds + [w];
    forall i | 0 <= i < |actions'| ensures Step(worlds'[i], actions'[i], answers'[i], worlds'[i + 1]) {
      if i < |actions| {
        assert Step(worlds[i], actions[i], answers[i], worlds[i + 1]);
      }
    }
  }

  // ----- Consequences of the canonical form ---------------------------------------------------

  /** What is free is what is not out. */
  lemma FreeIsNotTaken(max: nat, w: World)
    requires Partition(max, w)
    ensures w.free == AllCells(max) - CellsOf(w.taken)
  {
  }

  lemma SameBlocksSameCells(p: seq<FreeSpace>, q: seq<FreeSpace>)
    requires multiset(p) == multiset(q)
    ensures CellsOf(p) == CellsOf(q)
  {
    forall x ensures x in p <==> x in q {
      assert x in p <==> x in multiset(p);
      assert x in q <==> x in multiset(q);
    }
    assert forall i :: Covered(p, i) <==> Covered(q, i);
  }

  /** Two whole runs that end with the same blocks out, in whatever order, end with the same list. */
  lemma ListDependsOnBlocksOut(max: nat,
      actions1: seq<Action>, answers1: seq<Option<FreeSpace>>, worlds1: seq<World>, list1: seq<FreeSpace>,
      actions2: seq<Action>, answers2: seq<Option<FreeSpace>>, worlds2: seq<World>, list2: seq<FreeSpace>)
    requires Replayed(max, actions1, answers1, worlds1, list1)
    requires Replayed(max, actions2, answers2, worlds2, list2)
    requires multiset(worlds1[|actions1|].taken) == multiset(worlds2[|actions2|].taken)
    ensures list1 == list2
  {
    RunKeepsPartition(max, actions1, answers1, worlds1, |actions1|);
    RunKeepsPartition(max, actions2, answers2, worlds2, |actions2|);
    FreeIsNotTaken(max, worlds1[|actions1|]);
    FreeIsNotTaken(max, worlds2[|actions2|]);
    SameBlocksSameCells(worlds1[|actions1|].taken, worlds2[|actions2|].taken);
    CanonicalFormIsUnique(list1, list2, max);
  }

  // ----- A request and its return -------------------------------------------------------------

  /** On the free list itself: a request and the return of what it got leave the exact list. */
  method GetAndReturn(chunks: Chunks, size: nat) returns (answer: Option<FreeSpace>)
    requires chunks.Valid() && size > 0
    modifies chunks.freeChunks
    ensures chunks.Valid() && chunks.freeChunks.items == old(chunks.freeChunks.items)
    ensures answer.Some? <==> Fits(old(chunks.Free()), ChunksFor(size))
  {
    ghost var before, max := chunks.freeChunks.items, chunks.freeChunks.capacity;
    answer := chunks.Get(size);
    ghost var after := chunks.Free();
    AnsweredIffFits(CellsOf(before), ChunksFor(size), answer, after);
    if answer.Some? {
      BlockFitsBack(before, max, size, answer.value, after);
      ReturnBlock(chunks, answer.value);
    }
    CanonicalFormIsUnique(before, chunks.freeChunks.items, max);
  }

  method ReturnBlock(chunks: Chunks, block: FreeSpace)
    requires chunks.Valid() && block.count > 0 && block.End() <= chunks.freeChunks.capacity
    requires block.Cells() !! chunks.Free()
    modifies chunks.freeChunks
    ensures chunks.Valid() && chunks.Free() == old(chunks.Free()) + block.Cells()
  {
    WholeChunks(block.count);
    chunks.ReturnBack(block.begin * CHUNK_SIZE, block.count * CHUNK_SIZE);
  }

  lemma AnsweredIffFits(free: set<nat>, n: nat, answer: Option<FreeSpace>, after: set<nat>)
    requires Request(free, n, answer, after)
    ensures answer.Some? <==> Fits(free, n)
    ensures answer.None? ==> after == free
  {
  }

  lemma BlockFitsBack(list: seq<FreeSpace>, max: nat, size: nat, block: FreeSpace, after: set<nat>)
    requires Canonical(list, max) && size > 0 && Request(CellsOf(list), ChunksFor(size), Some(block), after)
    ensures block.count > 0 && block.End() <= max
    ensures after !! block.Cells() && after + block.Cells() == CellsOf(list)
  {
    AnswerIsFree(CellsOf(list), ChunksFor(size), block, after);
    CellsInside(list, max);
    EndsInside(block, max);
  }

  /** After any run, a request followed by the return of its block changes nothing at all. */
  lemma ReturnUndoesRequest(max: nat, actions: seq<Action>, size: nat,
      answers: seq<Option<FreeSpace>>, worlds: seq<World>, list: seq<FreeSpace>,
      answers': seq<Option<FreeSpace>>, worlds': seq<World>, list': seq<FreeSpace>)
    requires Replayed(max, actions, answers, worlds, list)
    requires Replayed(max, actions + [Take(size), GiveBack(|worlds[|actions|].taken|)], answers', worlds', list')
    ensures list' == list
  {
    var k := |actions|;
    var all := actions + [Take(size), GiveBack(|worlds[k].taken|)];
    PrefixIsRun(max, all, answers', worlds', k);
    assert all[..k] == actions;
    ReferenceRunIsDeterministic(max, actions, answers, worlds, answers'[..k], worlds'[..k + 1], k);
    assert Step(worlds'[k], all[k], answers'[k], worlds'[k + 1]);
    assert Step(worlds'[k + 1], all[k + 1], answers'[k + 1], worlds'[k + 2]);
    assert worlds'[k + 2].taken == worlds[k].taken;
    ListDependsOnBlocksOut(max, actions, answers, worlds, list, all, answers', worlds', list');
  }

  lemma PrefixIsRun(max: nat, actions: seq<Action>, answers: seq<Option<FreeSpace>>, worlds: seq<World>, k: nat)
    requires ReferenceRun(max, actions, answers, worlds) && k <= |actions|
    ensures ReferenceRun(max, actions[..k], answers[..k], worlds[..k + 1])
  {
    forall i | 0 <= i < k
      ensures Step(worlds[..k + 1][i], actions[..k][i], answers[..k][i], worlds[..k + 1][i + 1])
    {
      assert Step(worlds[i], actions[i], answers[i], worlds[i + 1]);
    }
  }

  // ----- Returns in any order -----------------------------------------------------------------

  /** The block that a step gives back, if any. */
  function BlockBack(w: World, a: Action): multiset<FreeSpace> {
    if a.GiveBack? && a.n < |w.taken| then multiset{w.taken[a.n]} else multiset{}
  }

  /** All blocks given back from step `k` on. */
  ghost function BlocksBack(actions: seq<Action>, worlds: seq<World>, k: nat): multiset<FreeSpace>
    requires k <= |actions| < |worlds|
    decreases |actions| - k
  {
    if k == |actions| then multiset{} else BlockBack(worlds[k], actions[k]) + BlocksBack(actions, worlds, k + 1)
  }

  /** Returns take exactly their blocks from those that are out. */
  lemma {:induction false} ReturnsAddUp(max: nat, actions: seq<Action>, answers: seq<Option<FreeSpace>>,
                                        worlds: seq<World>, k: nat)
    requires ReferenceRun(max, actions, answers, worlds) && k <= |actions|
    requires forall i :: k <= i < |actions| ==> actions[i].GiveBack?
    ensures multiset(worlds[k].taken) == multiset(worlds[|actions|].taken) + BlocksBack(actions, worlds, k)
    decreases |actions| - k
  {
    if k < |actions| {
      ReturnsAddUp(max, actions, answers, worlds, k + 1);
      ReturnAddsUp(worlds[k], actions[k], answers[k], worlds[k + 1]);
      Regroup(multiset(worlds[|actions|].taken), BlocksBack(actions, worlds, k + 1), BlockBack(worlds[k], actions[k]));
    }
  }

  lemma Regroup(a: multiset<FreeSpace>, b: multiset<FreeSpace>, c: multiset<FreeSpace>)
    ensures (a + b) + c == a + (c + b)
  {
  }

  lemma ReturnAddsUp(w: World, a: Action, answer: Option<FreeSpace>, w': World)
    requires Step(w, a, answer, w') && a.GiveBack?
    ensures multiset(w.taken) == multiset(w'.taken) + BlockBack(w, a)
  {
    if a.n < |w.taken| {
      assert w.taken == w.taken[..a.n] + [w.taken[a.n]] + w.taken[a.n + 1..];
    }
  }

  lemma Cancel(a: multiset<FreeSpace>, b: multiset<FreeSpace>, both: multiset<FreeSpace>)
    requires a + both == b + both
    ensures a == b
  {
    assert a == (a + both) - both;
    assert b == (b + both) - both;
  }

  /** After any run, the same blocks given back in any two orders leave the same list. */
  lemma ReturnOrderIsIrrelevant(max: nat, actions: seq<Action>, p: seq<Action>, q: seq<Action>,
      answersP: seq<Option<FreeSpace>>, worldsP: seq<World>, listP: seq<FreeSpace>,
      answersQ: seq<Option<FreeSpace>>, worldsQ: seq<World>, listQ: seq<FreeSpace>)
    requires forall i :: 0 <= i < |p| ==> p[i].GiveBack?
    requires forall i :: 0 <= i < |q| ==> q[i].GiveBack?
    requires Replayed(max, actions + p, answersP, worldsP, listP)
    requires Replayed(max, actions + q, answersQ, worldsQ, listQ)
    requires BlocksBack(actions + p, worldsP, |actions|) == BlocksBack(actions + q, worldsQ, |actions|)
    ensures listP == listQ
  {
    var k := |actions|;
    PrefixIsRun(max, actions + p, answersP, worldsP, k);
    PrefixIsRun(max, actions + q, answersQ, worldsQ, k);
    assert (actions + p)[..k] == actions && (actions + q)[..k] == actions;
    ReferenceRunIsDeterministic(max, actions, answersP[..k], worldsP[..k + 1], answersQ[..k], worldsQ[..k + 1], k);
    ReturnsAddUp(max, actions + p, answersP, worldsP, k);
    ReturnsAddUp(max, actions + q, answersQ, worldsQ, k);
    var outP, outQ := multiset(worldsP[|actions + p|].taken), multiset(worldsQ[|actions + q|].taken);
    Cancel(outP, outQ, BlocksBack(actions + p, worldsP, k));
    ListDependsOnBlocksOut(max, actions + p, answersP, worldsP, listP, actions + q, answersQ, worldsQ, listQ);
  }

  /** With nothing out the list is the initial single run. */
  lemma AllReturnedIsInitial(list: seq<FreeSpace>, max: nat, w: World)
    requires max > 0 && Canonical(list, max)
    requires Partition(max, w) && w.taken == [] && CellsOf(list) == w.free
    ensures list == [FreeSpace(0, max)]
  {
    var initial := [FreeSpace(0, max)];
    assert CellsOf(initial[1..]) == {};
    CanonicalFormIsUnique(list, initial, max);
  }

  // ----- Fragmentation ------------------------------------------------------------------------

  lemma {:induction false} FewEnds(s: seq<FreeSpace>)
    ensures |Ends(s)| <= |s|
    ensures forall x :: x in s ==> x.End() in Ends(s)
  {
    if |s| > 0 {
      FewEnds(s[1..]);
      assert forall x :: x in s <==> x == s[0] || x in s[1..];
    }
  }

  lemma {:induction false} BeginIsListed(s: seq<FreeSpace>, b: nat)
    requires b in Begins(s)
    ensures exists x :: x in s && x.begin == b
  {
    if b == s[0].begin {
      assert s[0] in s;
    } else {
      BeginIsListed(s[1..], b);
      var x :| x in s[1..] && x.begin == b;
      assert x in s;
    }
  }

  /** A free run that does not start the buffer starts where a live block ends. */
  lemma RunFollowsBlock(list: seq<FreeSpace>, max: nat, w: World, x: FreeSpace)
    requires Canonical(list, max) && Partition(max, w) && CellsOf(list) == w.free
    requires x in list && x.begin > 0
    ensures x.begin in Ends(w.taken)
  {
    ListedIsMaximal(list, max, x);
    assert FreeSpace(0, max).Has(x.begin - 1);
    assert Covered(w.taken, x.begin - 1);
    var b :| b in w.taken && b.Has(x.begin - 1);
    assert b.Has(x.begin) ==> Covered(w.taken, x.begin);
    assert x.begin in x.Cells();
    FewEnds(w.taken);
  }

  lemma FewRuns(list: seq<FreeSpace>, max: nat, w: World)
    requires Canonical(list, max) && Partition(max, w) && CellsOf(list) == w.free
    ensures |list| <= |w.taken| + 1
  {
    forall b | b in Begins(list) && b > 0 ensures b in Ends(w.taken) {
      BeginIsListed(list, b);
      var x :| x in list && x.begin == b;
      RunFollowsBlock(list, max, w, x);
    }
    SubsetSize(Begins(list), Ends(w.taken) + {0});
    BoundariesAreDistinct(list, max);
    FewEnds(w.taken);
  }

  lemma SmallRunsHoldFewCells(list: seq<FreeSpace>, max: nat, w: World, most: nat)
    requires Canonical(list, max) && Partition(max, w) && CellsOf(list) == w.free
    requires forall x :: x in list ==> x.count <= most
    ensures |w.free| <= (|w.taken| + 1) * most
  {
    CellsOfSmallRuns(list, most);
    FewRuns(list, max, w);
    Monotone(|list|, |w.taken| + 1, most);
  }

  lemma EnoughFreeCellsFit(list: seq<FreeSpace>, max: nat, w: World, n: nat)
    requires Canonical(list, max) && Partition(max, w) && CellsOf(list) == w.free
    ensures |w.free| > (|w.taken| + 1) * n ==> Fits(w.free, n + 1)
  {
    if !Fits(w.free, n + 1) {
      forall x | x in list
        ensures x.count <= n
      {
        ListedIsMaximal(list, max, x);
      }
      SmallRunsHoldFewCells(list, max, w, n);
    }
  }

  /** After any run there is at most one free run more than there are blocks out. */
  lemma FragmentationBound(max: nat, actions: seq<Action>, answers: seq<Option<FreeSpace>>, worlds: seq<World>,
                           list: seq<FreeSpace>)
    requires Replayed(max, actions, answers, worlds, list)
    ensures |list| <= |worlds[|actions|].taken| + 1
  {
    RunKeepsPartition(max, actions, answers, worlds, |actions|);
    FewRuns(list, max, worlds[|actions|]);
  }

  /** After any run the next request is answered with a block exactly if it fits. */
  lemma NextRequestIff(max: nat, actions: seq<Action>, size: nat,
      answers: seq<Option<FreeSpace>>, worlds: seq<World>, answers': seq<Option<FreeSpace>>, worlds': seq<World>)
    requires ReferenceRun(max, actions, answers, worlds)
    requires ReferenceRun(max, actions + [Take(size)], answers', worlds')
    ensures answers'[|actions|].Some? <==> Fits(worlds[|actions|].free, ChunksFor(size))
  {
    var k, all := |actions|, actions + [Take(size)];
    PrefixIsRun(max, all, answers', worlds', k);
    assert all[..k] == actions;
    ReferenceRunIsDeterministic(max, actions, answers, worlds, answers'[..k], worlds'[..k + 1], k);
    assert Step(worlds'[k], all[k], answers'[k], worlds'[k + 1]);
    AnsweredIffFits(worlds[k].free, ChunksFor(size), answers'[k], worlds'[k + 1].free);
  }

  /**
     After any run with m blocks out and more than (m + 1) * n cells free, the next request for at most
     n + 1 chunks is answered with a block.
   */
  lemma EnoughFreeCellsAreAnswered(max: nat, actions: seq<Action>, size: nat, n: nat,
      answers: seq<Option<FreeSpace>>, worlds: seq<World>, list: seq<FreeSpace>,
      answers': seq<Option<FreeSpace>>, worlds': seq<World>)
    requires Replayed(max, actions, answers, worlds, list)
    requires ReferenceRun(max, actions + [Take(size)], answers', worlds')
    requires ChunksFor(size) <= n + 1
    ensures |worlds[|actions|].free| > (|worlds[|actions|].taken| + 1) * n ==> answers'[|actions|].Some?
  {
    RunKeepsPartition(max, actions, answers, worlds, |actions|);
    EnoughFreeCellsFit(list, max, worlds[|actions|], n);
    FitsLess(worlds[|actions|].free, ChunksFor(size), n + 1);
    NextRequestIff(max, actions, size, answers, worlds, answers', worlds');
  }

  lemma FitsLess(free: set<nat>, less: nat, n: nat)
    requires less <= n
    ensures Fits(free, n) ==> Fits(free, less)
  {
  }

  lemma Monotone(a: nat, b: nat, k: nat)
    requires a <= b
    ensures a * k <= b * k
  {
  }
}
