/** The free-chunks manager of `src/allocator/chunks.rs`. */
module ChunksManager {
  import opened Wrappers
  import opened FiniteSets
  import opened FreeSpaces
  import opened SortedVec
  import opened Bitmap
  import opened Runs
  import opened Merging

  const CHUNK_SIZE: nat := 8
  const USIZE_MAX: nat := 0xFFFF_FFFF_FFFF_FFFF

  /** `size` rounded up to whole chunks. */
  function ChunksFor(size: nat): nat {
    if size % CHUNK_SIZE == 0 then size / CHUNK_SIZE else size / CHUNK_SIZE + 1
  }

  /** It is the least number of chunks that hold `size` bytes, and the source's `checked_add(1)` never overflows. */
  lemma ChunksForIsLeast(size: nat)
    ensures ChunksFor(size) * CHUNK_SIZE >= size
    ensures forall m: nat :: m * CHUNK_SIZE >= size ==> m >= ChunksFor(size)
    ensures size <= USIZE_MAX ==> ChunksFor(size) <= USIZE_MAX
  {
  }

  class Chunks {
    const freeChunks: FixesSortedVec

    ghost predicate Valid()
      reads this, freeChunks
    {
      && freeChunks.Valid()
      && Canonical(freeChunks.items, freeChunks.capacity)
    }

    ghost function Free(): set<nat>
      reads this, freeChunks
    {
      CellsOf(freeChunks.items)
    }

    constructor (maxChunks: nat)
      requires maxChunks > 0
      ensures Valid() && fresh(freeChunks) && freeChunks.capacity == maxChunks
      ensures freeChunks.items == [FreeSpace(0, maxChunks)]
      ensures Free() == AllCells(maxChunks)
    {
      freeChunks := new FixesSortedVec(maxChunks);
      new;
      freeChunks.Push(FreeSpace(0, maxChunks));
      assert freeChunks.items == [FreeSpace(0, maxChunks)];
      assert CellsOf(freeChunks.items[1..]) == {};
    }

    /** The first listed run that `chunk` can be merged with, and the merged run. */
    method FindAndMerge(chunk: FreeSpace) returns (found: Option<(nat, FreeSpace)>)
      ensures found.None? ==> forall x :: x in freeChunks.items ==> x.Merge(chunk).None?
      ensures found.Some? ==>
                var (id, merged) := found.value;
                && id < |freeChunks.items|
                && freeChunks.items[id].Merge(chunk) == Some(merged)
                && forall i :: 0 <= i < id ==> freeChunks.items[i].Merge(chunk).None?
    {
      for id := 0 to |freeChunks.items|
        invariant forall i :: 0 <= i < id ==> freeChunks.items[i].Merge(chunk).None?
      {
        var merged := freeChunks.items[id].Merge(chunk);
        if merged.Some? {
          return Some((id, merged.value));
        }
      }
      found := None;
    }

    /**
     Adds the cells of a run that overlaps no free one, merging it with its neighbours. The list
     grows by one entry less the number of neighbours, so there are at most two merges.
     */
    method InsertChunkAndMerge(chunk: FreeSpace)
      requires Valid()
      requires chunk.count > 0 && chunk.End() <= freeChunks.capacity
      requires chunk.Cells() !! Free()
      modifies freeChunks
      ensures Valid()
      ensures Free() == old(Free()) + chunk.Cells()
      ensures |freeChunks.items| == old(|freeChunks.items|) + 1 - Touching(old(Free()), chunk)
    {
      if |freeChunks.items| == 0 {
        PushApart(chunk);
        return;
      }
      var merged := MergeNeighbours(chunk);
      PushApart(merged);
    }

    /** The `while let` loop of `insert_chunk_and_merge`: takes neighbours out of the list until none is left. */
    method MergeNeighbours(chunk: FreeSpace) returns (held: FreeSpace)
      requires Valid()
      requires chunk.count > 0 && chunk.End() <= freeChunks.capacity
      requires chunk.Cells() !! Free()
      modifies freeChunks
      ensures freeChunks.Valid()
      ensures HalfMerged(freeChunks.items, freeChunks.capacity, held, old(freeChunks.items), chunk)
      ensures Touching(Free(), held) == 0
      ensures forall x :: x in freeChunks.items ==> Apart(x, held)
    {
      ghost var before := freeChunks.items;
      held := chunk;
      while true
        invariant freeChunks.Valid()
        invariant HalfMerged(freeChunks.items, freeChunks.capacity, held, before, chunk)
        decreases |freeChunks.items|
      {
        var found := FindAndMerge(held);
        if found.None? {
          break;
        }
        var (id, merged) := found.value;
        MergeStep(freeChunks.items, freeChunks.capacity, held, before, chunk, id);
        var _ := freeChunks.Pop(id);
        held := merged;
      }
      NothingToMerge(freeChunks.items, freeChunks.capacity, held);
    }

    /** Pushing a run that touches nothing listed: there is always a free slot for it. */
    method PushApart(chunk: FreeSpace)
      requires Valid()
      requires chunk.count > 0 && chunk.End() <= freeChunks.capacity
      requires forall x :: x in freeChunks.items ==> Apart(x, chunk)
      modifies freeChunks
      ensures Valid()
      ensures Free() == old(Free()) + chunk.Cells()
      ensures |freeChunks.items| == old(|freeChunks.items|) + 1
    {
      RoomForOneMore(freeChunks.items, freeChunks.capacity, chunk);
      freeChunks.Push(chunk);
      ghost var idx: nat :| idx <= old(|freeChunks.items|)
                         && freeChunks.items == Inserted(old(freeChunks.items), idx, chunk);
      RunAdded(old(freeChunks.items), freeChunks.capacity, idx, chunk);
    }

    /** Best fit: the front of the first listed run that is long enough. */
    method Get(size: nat) returns (space: Option<FreeSpace>)
      requires Valid()
      modifies freeChunks
      ensures Valid()
      ensures Request(old(Free()), ChunksFor(size), space, Free())
      ensures space.Some? ==>
                |freeChunks.items| == old(|freeChunks.items|) - if space.value in old(freeChunks.items) then 1 else 0
    {
      var required := ChunksFor(size);
      var idx := freeChunks.LowerBoundByCount(required);
      if idx >= |freeChunks.items| {
        LastDecides(freeChunks.items, freeChunks.capacity, required);
        return None;
      }
      FrontTaken(freeChunks.items, freeChunks.capacity, idx, required);
      var whole := freeChunks.Pop(idx);
      var (front, unused) := whole.Split(required);
      if unused.Some? {
        InsertChunkAndMerge(unused.value);
      }
      space := Some(front);
    }

    /** Returns `size` bytes that begin `shift` bytes into the buffer and overlap nothing free. */
    method ReturnBack(shift: nat, size: nat)
      requires Valid()
      requires shift % CHUNK_SIZE == 0 && size > 0
      requires shift / CHUNK_SIZE + ChunksFor(size) <= freeChunks.capacity
      requires FreeSpace(shift / CHUNK_SIZE, ChunksFor(size)).Cells() !! Free()
      modifies freeChunks
      ensures Valid()
      ensures Free() == old(Free()) + FreeSpace(shift / CHUNK_SIZE, ChunksFor(size)).Cells()
      ensures |freeChunks.items| == old(|freeChunks.items|) + 1
                                    - Touching(old(Free()), FreeSpace(shift / CHUNK_SIZE, ChunksFor(size)))
    {
      InsertChunkAndMerge(FreeSpace(shift / CHUNK_SIZE, ChunksFor(size)));
    }
  }

  lemma BestFitAnswers(free: set<nat>, n: nat, r: FreeSpace, after: set<nat>)
    requires BestFit(free, n, r)
    requires after == free - FreeSpace(r.begin, n).Cells()
    ensures Request(free, n, Some(FreeSpace(r.begin, n)), after)
  {
  }

  /** The list without its best-fitting run, and the unused rest of that run, which touches nothing free. */
  lemma FrontTaken(s: seq<FreeSpace>, max: nat, idx: nat, required: nat)
    requires Canonical(s, max) && idx < |s| && s[idx].count >= required
    requires forall i :: 0 <= i < idx ==> s[i].count < required
    ensures var (front, unused) := s[idx].Split(required);
            var rest := Without(s, idx);
            && Canonical(rest, max)
            && (front in s <==> unused.None?)
            && (match unused
                case None => Request(CellsOf(s), required, Some(front), CellsOf(rest))
                case Some(tail) =>
                  && tail.End() <= max && tail.Cells() !! CellsOf(rest)
                  && Touching(CellsOf(rest), tail) == 0
                  && Request(CellsOf(s), required, Some(front), CellsOf(rest) + tail.Cells()))
  {
    var whole := s[idx];
    FirstSufficientIsBestFit(s, max, required, idx);
    RunRemoved(s, max, idx);
    if required < whole.count {
      RestTouchesNothing(s, max, whole, required);
    } else {
      BestFitAnswers(CellsOf(s), required, whole, CellsOf(s) - whole.Cells());
    }
  }

  lemma RestTouchesNothing(s: seq<FreeSpace>, max: nat, whole: FreeSpace, required: nat)
    requires Canonical(s, max) && whole in s && required < whole.count
    requires BestFit(CellsOf(s), required, whole)
    ensures var (front, unused) := whole.Split(required);
            && front !in s && unused.Some?
            && var tail, rest := unused.value, CellsOf(s) - whole.Cells();
               && tail.End() <= max && tail.Cells() !! rest && Touching(rest, tail) == 0
               && Request(CellsOf(s), required, Some(front), rest + tail.Cells())
  {
    TailIsApart(CellsOf(s), whole, required);
    FrontIsAnswer(CellsOf(s), whole, required);
    FrontIsNotListed(s, max, whole, required);
    RunIsInside(s, max, whole);
  }

  lemma FrontIsNotListed(s: seq<FreeSpace>, max: nat, whole: FreeSpace, required: nat)
    requires Canonical(s, max) && IsMaximalRun(CellsOf(s), whole) && required < whole.count
    ensures FreeSpace(whole.begin, required) !in s
  {
    TailIsApart(CellsOf(s), whole, required);
    ListedIffMaximal(s, max, FreeSpace(whole.begin, required));
  }

  lemma RunIsInside(s: seq<FreeSpace>, max: nat, whole: FreeSpace)
    requires Canonical(s, max) && whole in s
    ensures whole.End() <= max
  {
  }

  lemma FrontIsAnswer(free: set<nat>, whole: FreeSpace, required: nat)
    requires BestFit(free, required, whole) && required < whole.count
    ensures var front := FreeSpace(whole.begin, required);
            var tail := FreeSpace(whole.begin + required, whole.count - required);
            Request(free, required, Some(front), (free - whole.Cells()) + tail.Cells())
  {
    TailIsApart(free, whole, required);
    BestFitAnswers(free, required, whole, free - FreeSpace(whole.begin, required).Cells());
  }

  lemma TailIsApart(free: set<nat>, whole: FreeSpace, required: nat)
    requires IsMaximalRun(free, whole) && required < whole.count
    ensures var front := FreeSpace(whole.begin, required);
            var tail := FreeSpace(whole.begin + required, whole.count - required);
            && tail.Cells() <= whole.Cells()
            && Touching(free - whole.Cells(), tail) == 0
            && !IsMaximalRun(free, front)
            && (free - whole.Cells()) + tail.Cells() == free - front.Cells()
  {
    var front, tail := FreeSpace(whole.begin, required), FreeSpace(whole.begin + required, whole.count - required);
    assert tail.Cells() <= whole.Cells();
    assert whole.Has(tail.begin) && tail.begin in whole.Cells();
    assert required > 0 ==> whole.Has(tail.begin - 1);
    assert required > 0 ==> tail.begin - 1 in whole.Cells();
  }

  /** The vector's capacity assertion cannot fire: one more separate run still leaves it at most half full. */
  lemma RoomForOneMore(s: seq<FreeSpace>, max: nat, r: FreeSpace)
    requires Canonical(s, max)
    requires r.count > 0 && r.End() <= max
    requires forall x :: x in s ==> Apart(x, r)
    ensures 2 * |s| + 1 <= max
  {
    BoundariesAreDistinct(s, max);
    BoundariesOfOthers(s, r);
    var marks := Begins(s) + Ends(s) + {r.begin} + {r.End()};
    var all := FreeSpace(0, max + 1);
    CellCount(all);
    assert forall m :: m in marks ==> all.Has(m);
    SubsetSize(marks, all.Cells());
    assert |Begins(s) + Ends(s)| == 2 * |s|;
  }
}
