/** How the free list changes when a run leaves it, joins it, or is absorbed by a neighbour. */
module Merging {
  import opened FreeSpaces
  import opened SortedVec
  import opened Bitmap
  import opened Runs

  /** How many of the two cells next to `r` are free: its mergeable neighbours. */
  ghost function Touching(free: set<nat>, r: FreeSpace): nat {
    (if r.begin > 0 && r.begin - 1 in free then 1 else 0) + (if r.End() in free then 1 else 0)
  }

  ghost function Without(s: seq<FreeSpace>, idx: nat): seq<FreeSpace>
    requires idx < |s|
  {
    s[..idx] + s[idx + 1..]
  }

  lemma RunRemoved(s: seq<FreeSpace>, max: nat, idx: nat)
    requires Canonical(s, max) && idx < |s|
    ensures Canonical(Without(s, idx), max)
    ensures CellsOf(Without(s, idx)) == CellsOf(s) - s[idx].Cells()
    ensures forall x :: x in Without(s, idx) <==> x in s && x != s[idx]
  {
    var t := Without(s, idx);
    assert forall i :: 0 <= i < |t| ==> t[i] == if i < idx then s[i] else s[i + 1];
    forall x ensures x in t <==> x in s && x != s[idx] {
      if x in s && x != s[idx] {
        var j :| 0 <= j < |s| && s[j] == x;
        assert t[if j < idx then j else j - 1] == x;
      }
      if x in t {
        var j :| 0 <= j < |t| && t[j] == x;
        assert if j < idx then Below(s[j], s[idx]) else Below(s[idx], s[j + 1]);
      }
    }
    assert forall x :: x in t ==> Apart(x, s[idx]);
    assert forall i :: Covered(t, i) <==> Covered(s, i) && !s[idx].Has(i);
  }

  lemma InsertedMembers(s: seq<FreeSpace>, idx: nat, r: FreeSpace)
    requires idx <= |s|
    ensures forall x :: x in Inserted(s, idx, r) <==> x == r || x in s
  {
    var t := Inserted(s, idx, r);
    assert t[idx] == r;
    forall x | x in s ensures x in t {
      var j :| 0 <= j < |s| && s[j] == x;
      assert t[if j < idx then j else j + 1] == x;
    }
  }

  lemma InsertedIncreasing(s: seq<FreeSpace>, idx: nat, r: FreeSpace)
    requires Increasing(s) && r !in s && idx <= |s| && Sorted(Inserted(s, idx, r))
    ensures Increasing(Inserted(s, idx, r))
  {
    var t := Inserted(s, idx, r);
    forall i, j | 0 <= i < j < |t| ensures Below(t[i], t[j]) {
      assert t[i] == if i < idx then s[i] else if i == idx then r else s[i - 1];
      assert t[j] == if j < idx then s[j] else if j == idx then r else s[j - 1];
      assert !Below(t[j], t[i]);
      assert t[i] != t[j];
      OrderIsTotal(t[i], t[j], t[i]);
    }
  }

  lemma RunAdded(s: seq<FreeSpace>, max: nat, idx: nat, r: FreeSpace)
    requires Canonical(s, max) && idx <= |s| && Sorted(Inserted(s, idx, r))
    requires r.count > 0 && r.End() <= max
    requires forall x :: x in s ==> Apart(x, r)
    ensures Canonical(Inserted(s, idx, r), max)
    ensures CellsOf(Inserted(s, idx, r)) == CellsOf(s) + r.Cells()
  {
    assert r !in s;
    InsertedMembers(s, idx, r);
    InsertedIncreasing(s, idx, r);
    assert forall i :: Covered(Inserted(s, idx, r), i) <==> Covered(s, i) || r.Has(i);
  }

  /** Without a mergeable neighbour a disjoint run is apart from every listed one. */
  lemma NothingToMerge(s: seq<FreeSpace>, max: nat, r: FreeSpace)
    requires Canonical(s, max) && r.count > 0
    requires r.Cells() !! CellsOf(s)
    requires forall x :: x in s ==> x.Merge(r).None?
    ensures forall x :: x in s ==> Apart(x, r)
    ensures Touching(CellsOf(s), r) == 0
  {
    forall x | x in s ensures Apart(x, r) {
      assert x.Has(r.begin) ==> r.Has(r.begin) && Covered(s, r.begin);
      assert r.Has(x.begin) ==> x.Has(x.begin) && Covered(s, x.begin);
    }
  }

  lemma AbsorbedCells(s: seq<FreeSpace>, max: nat, idx: nat, r: FreeSpace)
    requires Canonical(s, max) && idx < |s|
    requires r.count > 0 && r.End() <= max && r.Cells() !! CellsOf(s)
    requires s[idx].Merge(r).Some?
    ensures var merged, rest := s[idx].Merge(r).value, Without(s, idx);
            && Canonical(rest, max)
            && merged.count > 0 && merged.End() <= max
            && merged.Cells() !! CellsOf(rest)
            && merged.Cells() + CellsOf(rest) == r.Cells() + CellsOf(s)
  {
    RunRemoved(s, max, idx);
    ListedIsMaximal(s, max, s[idx]);
    MergeJoinsCells(s[idx], r);
  }

  /** One touching side of `r` is used up when the maximal run `x` next to it is taken over. */
  lemma TouchingAfterTakeover(free: set<nat>, x: FreeSpace, r: FreeSpace)
    requires IsMaximalRun(free, x) && r.count > 0 && r.Cells() !! free
    requires x.Merge(r).Some?
    ensures Touching(free - x.Cells(), x.Merge(r).value) + 1 == Touching(free, r)
  {
    assert x.Has(x.begin) && x.Has(x.End() - 1);
    assert x.begin in x.Cells() && x.End() - 1 in x.Cells();
    assert r.Has(r.begin) && r.Has(r.End() - 1);
    assert r.begin in r.Cells() && r.End() - 1 in r.Cells();
    if x.End() == r.begin {
      assert !x.Has(r.End());
    } else {
      assert r.begin > 0 ==> !x.Has(r.begin - 1);
    }
  }

  /**
     The state of `insert_chunk_and_merge` between two merges: the run `held` is outside the list,
     list and run together have the cells of the initial list `s0` and the inserted `chunk`, and
     the entries still to go are as many as the free neighbours of `held`.
   */
  ghost predicate HalfMerged(s: seq<FreeSpace>, max: nat, held: FreeSpace, s0: seq<FreeSpace>, chunk: FreeSpace) {
    && Canonical(s, max)
    && held.count > 0 && held.End() <= max
    && held.Cells() !! CellsOf(s)
    && held.Cells() + CellsOf(s) == chunk.Cells() + CellsOf(s0)
    && |s| - Touching(CellsOf(s), held) == |s0| - Touching(CellsOf(s0), chunk)
  }

  lemma MergeStep(s: seq<FreeSpace>, max: nat, held: FreeSpace, s0: seq<FreeSpace>, chunk: FreeSpace, idx: nat)
    requires HalfMerged(s, max, held, s0, chunk)
    requires idx < |s| && s[idx].Merge(held).Some?
    ensures HalfMerged(Without(s, idx), max, s[idx].Merge(held).value, s0, chunk)
  {
    AbsorbedCells(s, max, idx, held);
    RunRemoved(s, max, idx);
    ListedIsMaximal(s, max, s[idx]);
    TouchingAfterTakeover(CellsOf(s), s[idx], held);
  }
}
