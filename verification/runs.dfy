/**
 The representation invariant of the free list, stated by addresses although the list is ordered
 by size: non-empty runs inside the buffer, no two of them overlapping or touching.
 */
module Runs {
  import opened FiniteSets
  import opened FreeSpaces
  import opened Bitmap

  /** Neither overlapping nor contiguous (for non-empty runs). */
  ghost predicate Apart(a: FreeSpace, b: FreeSpace) {
    a.End() < b.begin || b.End() < a.begin
  }

  ghost predicate Increasing(s: seq<FreeSpace>) {
    forall i, j :: 0 <= i < j < |s| ==> Below(s[i], s[j])
  }

  ghost predicate Canonical(s: seq<FreeSpace>, max: nat) {
    && Increasing(s)
    && (forall x :: x in s ==> x.count > 0 && x.End() <= max)
    && (forall x, y :: x in s && y in s && x != y ==> Apart(x, y))
  }

  /** Cell `i` lies in one of the runs. */
  ghost predicate Covered(s: seq<FreeSpace>, i: nat) {
    exists x :: x in s && x.Has(i)
  }

  ghost function CellsOf(s: seq<FreeSpace>): (cells: set<nat>)
    ensures forall i :: i in cells <==> Covered(s, i)
  {
    var cells := set x, i | x in s && i in x.Cells() :: i;
    assert forall i :: Covered(s, i) ==> i in cells by {
      forall i | Covered(s, i) ensures i in cells {
        var x :| x in s && x.Has(i);
        assert i in x.Cells();
      }
    }
    cells
  }

  ghost function AllCells(max: nat): (cells: set<nat>) {
    FreeSpace(0, max).Cells()
  }

  lemma CellsInside(s: seq<FreeSpace>, max: nat)
    requires Canonical(s, max)
    ensures forall c :: c in CellsOf(s) ==> c < max
  {
  }

  /** Around a listed run there is nothing free. */
  lemma ListedIsMaximal(s: seq<FreeSpace>, max: nat, r: FreeSpace)
    requires Canonical(s, max) && r in s
    ensures IsMaximalRun(CellsOf(s), r)
  {
    assert forall y :: y in s && y != r ==> Apart(r, y);
    assert forall i :: r.Has(i) ==> Covered(s, i);
    assert !Covered(s, r.End());
    assert r.begin > 0 ==> !Covered(s, r.begin - 1);
  }

  /** Two maximal runs that share a cell are the same run. */
  lemma MaximalRunsMeetOnlyIfEqual(free: set<nat>, x: FreeSpace, r: FreeSpace)
    requires IsMaximalRun(free, x) && IsMaximalRun(free, r)
    requires x.Has(r.begin)
    ensures x == r
  {
    assert r.begin > 0 && x.Has(r.begin - 1) ==> r.begin - 1 in x.Cells();
    assert r.Has(x.End()) ==> x.End() in r.Cells();
    assert x.Has(r.End()) ==> r.End() in x.Cells();
  }

  /** The listed runs are exactly the maximal runs of the free cells. */
  lemma ListedIffMaximal(s: seq<FreeSpace>, max: nat, r: FreeSpace)
    requires Canonical(s, max)
    ensures r in s <==> IsMaximalRun(CellsOf(s), r)
  {
    if r in s {
      ListedIsMaximal(s, max, r);
    } else if IsMaximalRun(CellsOf(s), r) {
      assert r.begin in r.Cells();
      var x :| x in s && x.Has(r.begin);
      ListedIsMaximal(s, max, x);
      MaximalRunsMeetOnlyIfEqual(CellsOf(s), x, r);
    }
  }

  lemma {:induction false} IncreasingIsDetermined(a: seq<FreeSpace>, b: seq<FreeSpace>)
    requires Increasing(a) && Increasing(b)
    requires forall x :: x in a <==> x in b
    ensures a == b
  {
    assert forall i :: 0 <= i < |a| ==> a[i] in b;
    assert forall i :: 0 <= i < |b| ==> b[i] in a;
    if |a| > 0 && |b| > 0 {
      OrderIsTotal(a[0], b[0], a[0]);
      assert a[0] == b[0];
      var a', b' := a[1..], b[1..];
      forall x ensures x in a' <==> x in b' {
        OrderIsTotal(a[0], x, a[0]);
        assert x in a <==> x == a[0] || x in a';
        assert x in b <==> x == a[0] || x in b';
      }
      IncreasingIsDetermined(a', b');
    }
  }

  /** Canonical form: the free cells determine the list. */
  lemma CanonicalFormIsUnique(a: seq<FreeSpace>, b: seq<FreeSpace>, max: nat)
    requires Canonical(a, max) && Canonical(b, max)
    requires CellsOf(a) == CellsOf(b)
    ensures a == b
  {
    forall x ensures x in a <==> x in b {
      ListedIffMaximal(a, max, x);
      ListedIffMaximal(b, max, x);
    }
    IncreasingIsDetermined(a, b);
  }

  /** A request fits a maximal run exactly when that many consecutive cells are free. */
  lemma FitsIffConsecutive(s: seq<FreeSpace>, max: nat, n: nat)
    requires Canonical(s, max) && n > 0
    ensures Fits(CellsOf(s), n) <==> HasConsecutive(CellsOf(s), n)
  {
    var free := CellsOf(s);
    if Fits(free, n) {
      var r :| IsMaximalRun(free, r) && r.count >= n;
      assert FreeSpace(r.begin, n).Cells() <= r.Cells();
    }
    if HasConsecutive(free, n) {
      var b: nat :| FreeSpace(b, n).Cells() <= free;
      var w := FreeSpace(b, n);
      assert w.Has(b);
      assert b in free;
      var x :| x in s && x.Has(b);
      ListedIsMaximal(s, max, x);
      assert w.Has(x.End()) ==> x.End() in w.Cells();
      assert x.count >= n;
    }
  }

  /** The largest run is listed last, so it alone decides whether a request can be met. */
  lemma LastDecides(s: seq<FreeSpace>, max: nat, n: nat)
    requires Canonical(s, max)
    ensures Fits(CellsOf(s), n) <==> |s| > 0 && s[|s| - 1].count >= n
  {
    var free := CellsOf(s);
    if Fits(free, n) {
      var r :| IsMaximalRun(free, r) && r.count >= n;
      ListedIffMaximal(s, max, r);
      var i :| 0 <= i < |s| && s[i] == r;
      assert i < |s| - 1 ==> Below(s[i], s[|s| - 1]);
    }
    if |s| > 0 && s[|s| - 1].count >= n {
      ListedIffMaximal(s, max, s[|s| - 1]);
    }
  }

  /** The first listed run with enough chunks is the reference's best fit. */
  lemma FirstSufficientIsBestFit(s: seq<FreeSpace>, max: nat, n: nat, idx: nat)
    requires Canonical(s, max)
    requires idx < |s| && s[idx].count >= n
    requires forall i :: 0 <= i < idx ==> s[i].count < n
    ensures BestFit(CellsOf(s), n, s[idx])
  {
    var free := CellsOf(s);
    ListedIffMaximal(s, max, s[idx]);
    forall q | IsMaximalRun(free, q) && q.count >= n
      ensures s[idx].count < q.count || (s[idx].count == q.count && s[idx].begin <= q.begin)
    {
      ListedIffMaximal(s, max, q);
      var j :| 0 <= j < |s| && s[j] == q;
    }
  }

  // ----- Counting ---------------------------------------------------------------------------

  ghost function Begins(s: seq<FreeSpace>): set<nat> {
    if |s| == 0 then {} else {s[0].begin} + Begins(s[1..])
  }

  ghost function Ends(s: seq<FreeSpace>): set<nat> {
    if |s| == 0 then {} else {s[0].End()} + Ends(s[1..])
  }

  lemma TailIsCanonical(s: seq<FreeSpace>, max: nat)
    requires Canonical(s, max) && |s| > 0
    ensures Canonical(s[1..], max)
    ensures forall x :: x in s[1..] ==> Apart(x, s[0])
  {
    var tail := s[1..];
    assert forall x :: x in tail ==> x in s;
    forall x | x in tail ensures Apart(x, s[0]) {
      var j :| 0 <= j < |tail| && tail[j] == x;
      assert Below(s[0], s[j + 1]);
    }
  }

  lemma {:induction false} BoundariesOfOthers(s: seq<FreeSpace>, r: FreeSpace)
    requires r.count > 0
    requires forall x :: x in s ==> Apart(x, r) && x.count > 0
    ensures r.begin !in Begins(s) && r.begin !in Ends(s)
    ensures r.End() !in Begins(s) && r.End() !in Ends(s)
  {
    if |s| > 0 {
      BoundariesOfOthers(s[1..], r);
      assert s[0] in s;
    }
  }

  lemma {:induction false} BoundariesAreDistinct(s: seq<FreeSpace>, max: nat)
    requires Canonical(s, max)
    ensures |Begins(s)| == |s| && |Ends(s)| == |s| && Begins(s) !! Ends(s)
    ensures forall m :: m in Begins(s) || m in Ends(s) ==> m <= max
  {
    if |s| > 0 {
      TailIsCanonical(s, max);
      BoundariesAreDistinct(s[1..], max);
      BoundariesOfOthers(s[1..], s[0]);
      assert s[0] in s;
    }
  }

  /** Every run takes a cell and, but for the last one, a gap: a list never holds more than half the cells. */
  lemma HalfFull(s: seq<FreeSpace>, max: nat)
    requires Canonical(s, max) && |s| > 0
    ensures 2 * |s| - 1 <= max
  {
    BoundariesAreDistinct(s, max);
    var marks := Begins(s) + Ends(s);
    var all := FreeSpace(0, max + 1);
    CellCount(all);
    assert forall m :: m in marks ==> all.Has(m);
    SubsetSize(marks, all.Cells());
  }

  lemma OneMore(a: nat, k: nat)
    ensures (a + 1) * k == a * k + k
  {
  }

  lemma {:induction false} CellsOfSmallRuns(s: seq<FreeSpace>, most: nat)
    requires forall x :: x in s ==> x.count <= most
    ensures |CellsOf(s)| <= |s| * most
  {
    if |s| > 0 {
      CellsOfSmallRuns(s[1..], most);
      assert s[0] in s;
      var rest := CellsOf(s[1..]);
      assert |CellsOf(s)| <= |rest| + s[0].count by {
        CellCount(s[0]);
        assert forall x :: x in s <==> x == s[0] || x in s[1..];
        assert CellsOf(s) == s[0].Cells() + rest;
        assert |s[0].Cells() + rest| == |s[0].Cells()| + |rest| - |s[0].Cells() * rest|;
      }
      OneMore(|s| - 1, most);
    }
  }
}
