/** Sizes of finite sets, and sets that gain or lose one element. */
module FiniteSets {
  lemma SubsetSize<T>(a: set<T>, b: set<T>)
    requires a <= b
    ensures |a| <= |b|
  {
    assert b == a + (b - a);
  }

  ghost function With<T>(a: set<T>, x: T, present: bool): set<T> {
    if present then a + {x} else a - {x}
  }

  lemma WithSize<T>(a: set<T>, x: T, present: bool)
    ensures |With(a, x, present)| == |a| + (if present then 1 else 0) - (if x in a then 1 else 0)
  {
    if x in a {
      assert a == (a - {x}) + {x};
    }
  }
}
