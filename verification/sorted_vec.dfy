/** The fixed-capacity sorted vector of `src/allocator/chunks/sorted_vec.rs`. */
module SortedVec {
  import opened FreeSpaces

  ghost predicate Sorted(s: seq<FreeSpace>) {
    forall i, j :: 0 <= i < j < |s| ==> !Below(s[j], s[i])
  }

  lemma WithoutFirst(s: seq<FreeSpace>)
    requires |s| > 0
    ensures multiset(s[1..]) == multiset(s) - multiset{s[0]}
  {
    assert s == [s[0]] + s[1..];
  }

  lemma FirstIsLeast(s: seq<FreeSpace>, x: FreeSpace)
    requires Sorted(s) && x in s
    ensures !Below(x, s[0])
  {
    OrderIsTotal(x, x, x);
  }

  lemma SameFirst(a: seq<FreeSpace>, b: seq<FreeSpace>)
    requires Sorted(a) && Sorted(b) && multiset(a) == multiset(b) && |a| > 0
    ensures |b| > 0 && a[0] == b[0]
  {
    assert a[0] in multiset(a) && a[0] in b;
    assert b[0] in multiset(b) && b[0] in a;
    FirstIsLeast(a, b[0]);
    FirstIsLeast(b, a[0]);
    OrderIsTotal(a[0], b[0], a[0]);
  }

  /** Two sorted sequences with the same elements, counted with multiplicity, are the same sequence. */
  lemma {:induction false} SortedPermutationIsUnique(a: seq<FreeSpace>, b: seq<FreeSpace>)
    requires Sorted(a) && Sorted(b)
    requires multiset(a) == multiset(b)
    ensures a == b
  {
    if |a| == 0 {
      assert |multiset(b)| == |b|;
    } else {
      SameFirst(a, b);
      WithoutFirst(a);
      WithoutFirst(b);
      SortedPermutationIsUnique(a[1..], b[1..]);
      assert a == [a[0]] + a[1..] && b == [b[0]] + b[1..];
    }
  }

  ghost function Inserted(s: seq<FreeSpace>, idx: nat, item: FreeSpace): seq<FreeSpace>
    requires idx <= |s|
  {
    s[..idx] + [item] + s[idx..]
  }

  lemma InsertionKeepsSorted(s: seq<FreeSpace>, idx: nat, item: FreeSpace)
    requires Sorted(s) && idx <= |s|
    requires forall i :: 0 <= i < idx ==> !Below(item, s[i])
    requires forall i :: idx <= i < |s| ==> Below(item, s[i])
    ensures Sorted(Inserted(s, idx, item))
    ensures multiset(Inserted(s, idx, item)) == multiset(s) + multiset{item}
  {
    var t := Inserted(s, idx, item);
    forall i, j | 0 <= i < j < |t| ensures !Below(t[j], t[i]) {
      InsertedAt(s, idx, item, i);
      InsertedAt(s, idx, item, j);
      OrderIsTotal(item, s[if j > idx then j - 1 else i], item);
    }
    assert s == s[..idx] + s[idx..];
  }

  lemma InsertedAt(s: seq<FreeSpace>, idx: nat, item: FreeSpace, i: nat)
    requires idx <= |s| && i <= |s|
    ensures Inserted(s, idx, item)[i] == if i < idx then s[i] else if i == idx then item else s[i - 1]
  {
  }

  class FixesSortedVec {
    var items: seq<FreeSpace>
    const capacity: nat

    ghost predicate Valid()
      reads this
    {
      |items| <= capacity && Sorted(items)
    }

    constructor (capacity: nat)
      ensures Valid() && items == [] && this.capacity == capacity
    {
      this.capacity := capacity;
      items := [];
    }

    /** `upper_bound`: the first index whose element is greater than `item`. */
    method UpperBound(item: FreeSpace) returns (idx: nat)
      requires Valid()
      ensures idx <= |items|
      ensures forall i :: 0 <= i < idx ==> !Below(item, items[i])
      ensures forall i :: idx <= i < |items| ==> Below(item, items[i])
    {
      var low, high := 0, |items|;
      while low < high
        invariant 0 <= low <= high <= |items|
        invariant forall i :: 0 <= i < low ==> !Below(item, items[i])
        invariant forall i :: high <= i < |items| ==> Below(item, items[i])
      {
        var mid := (low + high) / 2;
        assert forall i :: mid < i < |items| ==> !Below(items[i], items[mid]);
        assert forall i :: 0 <= i < mid ==> !Below(items[mid], items[i]);
        if Below(item, items[mid]) {
          high := mid;
        } else {
          low := mid + 1;
        }
      }
      idx := low;
    }

    /** `lower_bound_by` on the counts: the first index whose run has at least `required` chunks. */
    method LowerBoundByCount(required: nat) returns (idx: nat)
      requires Valid()
      ensures idx <= |items|
      ensures forall i :: 0 <= i < idx ==> items[i].count < required
      ensures forall i :: idx <= i < |items| ==> items[i].count >= required
    {
      var low, high := 0, |items|;
      while low < high
        invariant 0 <= low <= high <= |items|
        invariant forall i :: 0 <= i < low ==> items[i].count < required
        invariant forall i :: high <= i < |items| ==> items[i].count >= required
      {
        var mid := (low + high) / 2;
        assert forall i :: mid < i < |items| ==> !Below(items[i], items[mid]);
        assert forall i :: 0 <= i < mid ==> !Below(items[mid], items[i]);
        if items[mid].count < required {
          low := mid + 1;
        } else {
          high := mid;
        }
      }
      idx := low;
    }

    /** Inserts in order. A full vector is an assertion failure in the source. */
    method Push(item: FreeSpace)
      requires Valid()
      requires |items| != capacity
      modifies this
      ensures Valid()
      ensures |items| == old(|items|) + 1
      ensures multiset(items) == multiset(old(items)) + multiset{item}
      ensures exists idx: nat :: idx <= old(|items|) && items == Inserted(old(items), idx, item)
    {
      var idx := UpperBound(item);
      InsertionKeepsSorted(items, idx, item);
      items := items[..idx] + [item] + items[idx..];
      assert items == Inserted(old(items), idx, item);
    }

    method Pop(index: nat) returns (item: FreeSpace)
      requires Valid()
      requires index < |items|
      modifies this
      ensures Valid()
      ensures item == old(items[index])
      ensures items == old(items[..index] + items[index + 1..])
      ensures multiset(old(items)) == multiset(items) + multiset{item}
    {
      item := items[index];
      ghost var before := items;
      items := items[..index] + items[index + 1..];
      assert before == before[..index] + [item] + before[index + 1..];
    }
  }

  /** Pushing any sequence into a vector with room for it yields its sorted permutation. */
  method PushAll(original: seq<FreeSpace>) returns (sorted: seq<FreeSpace>)
    ensures Sorted(sorted) && multiset(sorted) == multiset(original)
    ensures forall other :: Sorted(other) && multiset(other) == multiset(original) ==> sorted == other
  {
    var v := new FixesSortedVec(|original|);
    for n := 0 to |original|
      invariant v.Valid() && fresh(v)
      invariant v.capacity == |original| && |v.items| == n
      invariant multiset(v.items) == multiset(original[..n])
    {
      v.Push(original[n]);
      assert original[..n + 1] == original[..n] + [original[n]];
    }
    sorted := v.items;
    assert original[..|original|] == original;
    forall other | Sorted(other) && multiset(other) == multiset(original)
      ensures sorted == other
    {
      SortedPermutationIsUnique(sorted, other);
    }
  }
}
