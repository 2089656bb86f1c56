/**
 The reference allocator: nothing but the set of free chunk numbers. It answers a request with
 the front of the smallest maximal free run that is large enough, the lowest one on ties.
 */
module Bitmap {
  import opened Wrappers
  import opened FreeSpaces

  /** `r` is a stretch of free cells that cannot be made longer on either side. */
  ghost predicate IsMaximalRun(free: set<nat>, r: FreeSpace) {
    && r.count > 0
    && r.Cells() <= free
    && (r.begin == 0 || r.begin - 1 !in free)
    && r.End() !in free
  }

  ghost predicate Fits(free: set<nat>, n: nat) {
    exists r :: IsMaximalRun(free, r) && r.count >= n
  }

  ghost predicate BestFit(free: set<nat>, n: nat, r: FreeSpace) {
    && IsMaximalRun(free, r)
    && r.count >= n
    && forall q :: IsMaximalRun(free, q) && q.count >= n ==>
         r.count < q.count || (r.count == q.count && r.begin <= q.begin)
  }

  /** There are `n` consecutive free cells somewhere. */
  ghost predicate HasConsecutive(free: set<nat>, n: nat) {
    exists b: nat :: FreeSpace(b, n).Cells() <= free
  }

  /** One request for `n` chunks: `answer` is given and `after` is what stays free. */
  ghost predicate Request(free: set<nat>, n: nat, answer: Option<FreeSpace>, after: set<nat>) {
    match answer
    case None => !Fits(free, n) && after == free
    case Some(block) =>
      && (exists r :: BestFit(free, n, r) && block == FreeSpace(r.begin, n))
      && after == free - block.Cells()
  }

  /** The reference leaves no choice: answer and new state are determined. */
  lemma RequestIsDeterministic(free: set<nat>, n: nat, a1: Option<FreeSpace>, f1: set<nat>,
                               a2: Option<FreeSpace>, f2: set<nat>)
    requires Request(free, n, a1, f1) && Request(free, n, a2, f2)
    ensures a1 == a2 && f1 == f2
  {
    if a1.Some? && a2.Some? {
      var r1 :| BestFit(free, n, r1) && a1.value == FreeSpace(r1.begin, n);
      var r2 :| BestFit(free, n, r2) && a2.value == FreeSpace(r2.begin, n);
      assert r1.count == r2.count && r1.begin == r2.begin;
    }
  }

  /** What is handed out was free, has the asked length, and touches no other free run's cells on its left. */
  lemma AnswerIsFree(free: set<nat>, n: nat, block: FreeSpace, after: set<nat>)
    requires Request(free, n, Some(block), after)
    ensures block.count == n && block.Cells() <= free
    ensures block.begin == 0 || block.begin - 1 !in free
    ensures after !! block.Cells() && after + block.Cells() == free
  {
    var r :| BestFit(free, n, r) && block == FreeSpace(r.begin, n);
    assert block.Cells() <= r.Cells();
  }
}
