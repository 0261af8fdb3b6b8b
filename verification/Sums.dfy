/** Sums of a weight over a finite set of labels. */
module Sums {
  import opened Ids

  ghost function SetSum(w: map<Id, int>, s: set<Id>): int
    requires s <= w.Keys
    decreases |s|
  {
    if s == {} then 0
    else var x :| x in s; w[x] + SetSum(w, s - {x})
  }

  /** The sum does not depend on which member is taken first. */
  lemma {:induction false} SumPick(w: map<Id, int>, s: set<Id>, y: Id)
    requires s <= w.Keys && y in s
    ensures SetSum(w, s) == w[y] + SetSum(w, s - {y})
    decreases |s|
  {
    var x :| x in s && SetSum(w, s) == w[x] + SetSum(w, s - {x});
    if x != y {
      SumPick(w, s - {x}, y);
      SumPick(w, s - {y}, x);
      assert s - {x} - {y} == s - {y} - {x};
    }
  }

  lemma SumAdd(w: map<Id, int>, s: set<Id>, y: Id)
    requires s <= w.Keys && y in w && y !in s
    ensures SetSum(w, s + {y}) == w[y] + SetSum(w, s)
  {
    SumPick(w, s + {y}, y);
    assert s + {y} - {y} == s;
  }

  lemma {:induction false} SumBound(w: map<Id, int>, s: set<Id>, hi: int)
    requires s <= w.Keys && forall x :: x in s ==> w[x] <= hi
    ensures SetSum(w, s) <= |s| * hi
    decreases |s|
  {
    if s != {} {
      var x :| x in s;
      SumPick(w, s, x);
      SumBound(w, s - {x}, hi);
      assert |s| * hi == (|s| - 1) * hi + hi;
    }
  }

  lemma {:induction false} SumSubset(w: map<Id, int>, s: set<Id>, r: set<Id>)
    requires s <= r <= w.Keys && forall x :: x in r ==> w[x] >= 0
    ensures SetSum(w, s) <= SetSum(w, r)
    decreases |r|
  {
    if s == {} {
      SumNonNegative(w, r);
    } else {
      var x :| x in s;
      SumPick(w, s, x);
      SumPick(w, r, x);
      SumSubset(w, s - {x}, r - {x});
    }
  }

  lemma {:induction false} SumNonNegative(w: map<Id, int>, s: set<Id>)
    requires s <= w.Keys && forall x :: x in s ==> w[x] >= 0
    ensures SetSum(w, s) >= 0
    decreases |s|
  {
    if s != {} {
      var x :| x in s;
      SumPick(w, s, x);
      SumNonNegative(w, s - {x});
    }
  }

  /** Two weights that agree on a set have the same sum over it. */
  lemma {:induction false} SumSame(w: map<Id, int>, w': map<Id, int>, s: set<Id>)
    requires s <= w.Keys && s <= w'.Keys && forall x :: x in s ==> w[x] == w'[x]
    ensures SetSum(w, s) == SetSum(w', s)
    decreases |s|
  {
    if s != {} {
      var x :| x in s;
      SumPick(w, s, x);
      SumPick(w', s, x);
      SumSame(w, w', s - {x});
    }
  }
}
