/** Parent graphs: walks along parent links, inclusive pasts and cycles. */
module Dag {
  import opened Ids

  /** Each key lists its parents; a listed parent need not be a key. */
  type Graph = map<Id, seq<Id>>

  /** A walk follows parent links from its first label to its last. */
  ghost predicate Walk(g: Graph, w: seq<Id>) {
    && w != []
    && (|w| > 1 ==> w[0] in g && w[1] in g[w[0]] && Walk(g, w[1..]))
  }

  ghost predicate WalkBetween(g: Graph, w: seq<Id>, x: Id, y: Id) {
    Walk(g, w) && w[0] == x && w[|w| - 1] == y
  }

  /** `y` is `x` or an ancestor of `x`. */
  ghost predicate Reaches(g: Graph, x: Id, y: Id) {
    exists w :: WalkBetween(g, w, x, y)
  }

  /** Every label that occurs in the graph. */
  ghost function Labels(g: Graph): set<Id> {
    g.Keys + (set n, p | n in g && p in g[n] :: p)
  }

  /** The inclusive past: `n` together with all its ancestors. */
  ghost function Past(g: Graph, n: Id): set<Id> {
    set y | y in Labels(g) + {n} && Reaches(g, n, y)
  }

  /** `s` contains every parent of every member it has a parent list for. */
  ghost predicate ParentClosed(g: Graph, s: set<Id>) {
    forall x, p :: x in s && x in g && p in g[x] ==> p in s
  }

  /** Every listed parent is a key. */
  ghost predicate Closed(g: Graph) {
    forall x, p :: x in g && p in g[x] ==> p in g
  }

  lemma {:induction false} WalkStays(g: Graph, w: seq<Id>, s: set<Id>)
    requires Walk(g, w) && w[0] in s && ParentClosed(g, s)
    ensures w[|w| - 1] in s
  {
    if |w| > 1 {
      WalkStays(g, w[1..], s);
    }
  }

  lemma {:induction false} WalkAppend(g: Graph, w: seq<Id>, p: Id)
    requires Walk(g, w)
    requires w[|w| - 1] in g && p in g[w[|w| - 1]]
    ensures Walk(g, w + [p])
  {
    if |w| > 1 {
      WalkAppend(g, w[1..], p);
      assert (w + [p])[1..] == w[1..] + [p];
    } else {
      assert Walk(g, [p]);
      assert (w + [p])[1..] == [p];
    }
  }

  /** The past contains its own label and is closed under parents. */
  lemma PastSelf(g: Graph, n: Id)
    ensures n in Past(g, n)
    ensures ParentClosed(g, Past(g, n))
  {
    assert WalkBetween(g, [n], n, n);
    forall x, p | x in Past(g, n) && x in g && p in g[x]
      ensures p in Past(g, n)
    {
      var w :| WalkBetween(g, w, n, x);
      WalkAppend(g, w, p);
      assert WalkBetween(g, w + [p], n, p);
    }
  }

  /** The past is the least parent-closed set holding `n`. */
  lemma PastLeast(g: Graph, n: Id, s: set<Id>)
    requires n in s && ParentClosed(g, s)
    ensures Past(g, n) <= s
  {
    forall y | y in Past(g, n)
      ensures y in s
    {
      var w :| WalkBetween(g, w, n, y);
      WalkStays(g, w, s);
    }
  }

  lemma PastReaches(g: Graph, n: Id, y: Id)
    ensures y in Past(g, n) <==> Reaches(g, n, y)
  {
    PastSelf(g, n);
    if Reaches(g, n, y) {
      var w :| WalkBetween(g, w, n, y);
      WalkStays(g, w, Past(g, n));
    }
  }

  lemma PastTrans(g: Graph, n: Id, x: Id)
    requires x in Past(g, n)
    ensures Past(g, x) <= Past(g, n)
  {
    PastSelf(g, n);
    PastLeast(g, x, Past(g, n));
  }

  /** `{n} | past[p1] | ... | past[pk]`. */
  ghost function PastOfParents(g: Graph, ps: seq<Id>): set<Id> {
    set p, y | p in ps && y in Past(g, p) :: y
  }

  lemma PastUnfold(g: Graph, n: Id)
    requires n in g
    ensures Past(g, n) == {n} + PastOfParents(g, g[n])
  {
    PastSelf(g, n);
    forall p | p in g[n]
      ensures Past(g, p) <= Past(g, n)
      ensures ParentClosed(g, Past(g, p)) && p in Past(g, p)
    {
      PastTrans(g, n, p);
      PastSelf(g, p);
    }
    var s := {n} + PastOfParents(g, g[n]);
    forall x, p | x in s && x in g && p in g[x]
      ensures p in s
    {
      if x == n {
        assert p in Past(g, p);
      } else {
        var q :| q in g[n] && x in Past(g, q);
        assert p in Past(g, q);
      }
    }
    PastLeast(g, n, s);
  }

  lemma PastInKeys(g: Graph, n: Id)
    requires Closed(g) && n in g
    ensures Past(g, n) <= g.Keys
  {
    PastLeast(g, n, g.Keys);
  }

  /** A past only depends on the parent sets found inside it. */
  lemma PastSame(g: Graph, g': Graph, n: Id)
    requires forall x :: x in Past(g, n) ==> (x in g <==> x in g')
    requires forall x :: x in Past(g, n) && x in g ==> Elems(g[x]) == Elems(g'[x])
    ensures Past(g, n) == Past(g', n)
  {
    PastSelf(g, n);
    PastSelf(g', n);
    forall x, p | x in Past(g, n) && x in g' && p in g'[x]
      ensures p in Past(g, n)
    {
      assert p in Elems(g'[x]);
      assert p in g[x];
    }
    PastLeast(g', n, Past(g, n));
    var s := Past(g, n) * Past(g', n);
    forall x, p | x in s && x in g && p in g[x]
      ensures p in s
    {
      assert p in Elems(g[x]);
      assert p in g'[x];
    }
    PastLeast(g, n, s);
  }

  // ---------- cycles ----------

  /** `x` is not its own proper ancestor. */
  ghost predicate LoopFree(g: Graph, x: Id) {
    x in g ==> forall p :: p in g[x] ==> x !in Past(g, p)
  }

  ghost predicate AcyclicFrom(g: Graph, n: Id) {
    forall x :: x in Past(g, n) ==> LoopFree(g, x)
  }

  ghost predicate Acyclic(g: Graph) {
    forall x :: x in g ==> LoopFree(g, x)
  }

  /** Proper ancestors in a loop-free past have strictly smaller pasts. */
  lemma PastShrinks(g: Graph, n: Id, a: Id)
    requires a in Past(g, n) && a != n && LoopFree(g, n)
    ensures n in g
    ensures n !in Past(g, a)
    ensures Past(g, a) < Past(g, n)
    ensures |Past(g, a)| < |Past(g, n)|
  {
    if n !in g {
      PastLeast(g, n, {n});
    }
    PastUnfold(g, n);
    var p :| p in g[n] && a in Past(g, p);
    PastTrans(g, p, a);
    PastTrans(g, n, a);
    PastSelf(g, n);
    SubsetCard(Past(g, a), Past(g, n));
  }

  lemma AcyclicInherits(g: Graph, n: Id, a: Id)
    requires a in Past(g, n) && AcyclicFrom(g, n)
    ensures AcyclicFrom(g, a)
  {
    PastTrans(g, n, a);
  }

  /** Some member of a nonempty set has a smallest past. */
  lemma {:induction false} SmallestPast(g: Graph, s: set<Id>) returns (m: Id)
    requires s != {}
    ensures m in s
    ensures forall y :: y in s ==> |Past(g, m)| <= |Past(g, y)|
    decreases |s|
  {
    var x :| x in s;
    m := x;
    if s != {x} {
      var y := SmallestPast(g, s - {x});
      if |Past(g, y)| < |Past(g, x)| {
        m := y;
      }
    }
  }

  /** A nonempty set without loops has a member none of whose parents is in it. */
  lemma SourceExists(g: Graph, s: set<Id>) returns (m: Id)
    requires s != {}
    requires forall x :: x in s ==> LoopFree(g, x)
    ensures m in s
    ensures m in g ==> forall p :: p in g[m] ==> p !in s
  {
    m := SmallestPast(g, s);
    if m in g {
      forall p | p in g[m]
        ensures p !in s
      {
        PastUnfold(g, m);
        PastSelf(g, p);
        if p != m {
          PastShrinks(g, m, p);
        }
      }
    }
  }
}
