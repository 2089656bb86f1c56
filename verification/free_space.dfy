/** Runs of elementary chunks: the value type of `src/allocator/free_chunk.rs`. */
module FreeSpaces {
  import opened Wrappers

  datatype Ordering = Less | Equal | Greater

  /** `usize::cmp`. */
  function CompareNat(a: nat, b: nat): Ordering {
    if a < b then Less else if a == b then Equal else Greater
  }

  /** A run of `count` chunks; `begin` is its `RelativeBeginning`, in chunks. */
  datatype FreeSpace = FreeSpace(begin: nat, count: nat) {

    function End(): nat {
      begin + count
    }

    ghost predicate Has(cell: nat) {
      begin <= cell < End()
    }

    /** The chunk numbers this run covers. */
    ghost function Cells(): (cells: set<nat>)
      ensures forall i: nat :: i in cells <==> Has(i)
    {
      set i: nat | i < End() && Has(i)
    }

    static predicate AreContiguous(left: FreeSpace, right: FreeSpace) {
      left.begin + left.count == right.begin
    }

    /** Cuts off the first `required` chunks; asking for more than there are is a panic in the source. */
    function Split(required: nat): (r: (FreeSpace, Option<FreeSpace>))
      requires required <= count
      ensures r.0.Cells() == set i | i in Cells() && i < begin + required
      ensures r.1.None? <==> r.0 == this
      ensures r.1.Some? ==> r.1.value.count > 0 && r.1.value.Cells() == Cells() - r.0.Cells()
    {
      var unused := count - required;
      if unused == 0 then (this, None)
      else (FreeSpace(begin, required), Some(FreeSpace(begin + required, unused)))
    }

    /** Joins two adjacent runs, whichever comes first. */
    function Merge(other: FreeSpace): Option<FreeSpace> {
      if AreContiguous(this, other) then Some(FreeSpace(begin, count + other.count))
      else if AreContiguous(other, this) then Some(FreeSpace(other.begin, count + other.count))
      else None
    }

    /** `Ord::cmp`: by count, then by beginning. */
    function Compare(other: FreeSpace): Ordering {
      var byCount := CompareNat(count, other.count);
      if byCount == Equal then CompareNat(begin, other.begin) else byCount
    }
  }

  predicate Below(a: FreeSpace, b: FreeSpace) {
    a.Compare(b) == Less
  }

  /** Fewer chunks, or as many and a lower beginning: a strict total order in which `Equal` means equality. */
  lemma OrderIsTotal(a: FreeSpace, b: FreeSpace, c: FreeSpace)
    ensures Below(a, b) <==> a.count < b.count || (a.count == b.count && a.begin < b.begin)
    ensures a.Compare(b) == Equal <==> a == b
    ensures a.Compare(b) == Less <==> b.Compare(a) == Greater
    ensures Below(a, b) && Below(b, c) ==> Below(a, c)
  {
  }

  /** Exactly adjacent runs can be merged, and the result covers what the two covered. */
  lemma MergeJoinsCells(a: FreeSpace, b: FreeSpace)
    ensures a.Merge(b).Some? <==> a.End() == b.begin || b.End() == a.begin
    ensures a.Merge(b).Some? ==> a.Merge(b).value.Cells() == a.Cells() + b.Cells()
    ensures a.Merge(b).Some? ==> a.Merge(b).value.count == a.count + b.count
  {
  }

  /** A run that is split comes back whole when its parts are merged, in either order. */
  lemma MergeUndoesSplit(s: FreeSpace, required: nat)
    requires 0 < required <= s.count
    ensures var (head, tail) := s.Split(required);
            if tail.None? then head == s
            else head.Merge(tail.value) == Some(s) && tail.value.Merge(head) == Some(s)
  {
  }

  lemma CellCount(s: FreeSpace)
    ensures |s.Cells()| == s.count
    decreases s.count
  {
    if s.count == 0 {
      assert s.Cells() == {};
    } else {
      var shorter := FreeSpace(s.begin, s.count - 1);
      CellCount(shorter);
      assert s.Cells() == shorter.Cells() + {s.begin + s.count - 1};
    }
  }
}
