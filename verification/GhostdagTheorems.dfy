/** What the GHOSTDAG recurrence guarantees for every block and every K. */
module GhostdagTheorems {
  import opened Ids
  import opened Sums
  import opened Dag
  import opened Ghostdag

  // ---------- greedy colouring ----------

  ghost function MarkedIds(c: seq<Mark>): set<Id> {
    set m | m in c :: m.id
  }

  ghost predicate DistinctMarks(c: seq<Mark>) {
    forall i, j :: 0 <= i < j < |c| ==> c[i].id != c[j].id
  }

  lemma MarkedCons(m: Mark, c: seq<Mark>)
    ensures MarkedIds([m] + c) == {m.id} + MarkedIds(c)
    ensures DistinctMarks([m] + c) <==> DistinctMarks(c) && m.id !in MarkedIds(c)
  {
    var d := [m] + c;
    assert d[0] == m;
    assert forall i :: 0 <= i < |c| ==> d[i + 1] == c[i];
    assert MarkedIds(d) == {m.id} + MarkedIds(c);
    if DistinctMarks(d) {
      forall i, j | 0 <= i < j < |c|
        ensures c[i].id != c[j].id
      {
        assert d[i + 1].id != d[j + 1].id;
      }
      forall x | x in c
        ensures x.id != m.id
      {
        var i :| 0 <= i < |c| && c[i] == x;
        assert d[0].id != d[i + 1].id;
      }
    }
    if DistinctMarks(c) && m.id !in MarkedIds(c) {
      forall i, j | 0 <= i < j < |d|
        ensures d[i].id != d[j].id
      {
        assert d[j] == c[j - 1] && d[j] in c;
        if i > 0 {
          assert d[i] == c[i - 1];
        }
      }
    }
  }

  /** The first mark of a colouring and the colouring that follows it. */
  lemma PaintHead(g: Graph, k: int, t: Table, rest: set<Id>, blue: set<Id>)
    returns (x: Id, ok: bool, blue': set<Id>, c: seq<Mark>)
    requires rest != {} && Paintable(g, t, rest)
    ensures x in rest && x in Ready(g, rest)
    ensures Paintable(g, t, rest - {x})
    ensures ok == KCluster(g, k, blue + {x})
    ensures blue' == if ok then blue + {x} else blue
    ensures c == Paint(g, k, t, rest - {x}, blue')
    ensures Paint(g, k, t, rest, blue) == [Mark(x, ok)] + c
  {
    x := Next(g, t, rest);
    ok := KCluster(g, k, blue + {x});
    blue' := if ok then blue + {x} else blue;
    c := Paint(g, k, t, rest - {x}, blue');
  }

  /** Every member of the merge set is coloured exactly once. */
  lemma {:induction false} PaintCovers(g: Graph, k: int, t: Table, rest: set<Id>, blue: set<Id>)
    requires Paintable(g, t, rest)
    ensures MarkedIds(Paint(g, k, t, rest, blue)) == rest
    ensures DistinctMarks(Paint(g, k, t, rest, blue))
    decreases |rest|
  {
    if rest != {} {
      hide Paint, Paintable;
      var x, ok, blue', c := PaintHead(g, k, t, rest, blue);
      PaintCovers(g, k, t, rest - {x}, blue');
      MarkedCons(Mark(x, ok), c);
    }
  }

  /** Some parent of `y` in `s` is `a` or a descendant of `a`. */
  ghost predicate Linked(g: Graph, s: set<Id>, y: Id, a: Id) {
    y in g && exists p :: p in g[y] && p in s && a in Past(g, p)
  }

  /** Every ancestor inside the set is reached through the set. */
  ghost predicate Convex(g: Graph, s: set<Id>) {
    forall y, a :: y in s && a in s && a in Past(g, y) && a != y ==> Linked(g, s, y, a)
  }

  lemma ReadyHasNoAncestor(g: Graph, s: set<Id>, x: Id, a: Id)
    requires s <= g.Keys && x in Ready(g, s) && Convex(g, s)
    requires a in s && a != x
    ensures a !in Past(g, x)
  {
    assert a in Past(g, x) ==> Linked(g, s, x, a);
    assert forall p :: p in g[x] && p in s ==> p in Elems(g[x]) * s;
  }

  lemma ConvexRemoveReady(g: Graph, s: set<Id>, x: Id)
    requires s <= g.Keys && x in Ready(g, s) && Convex(g, s)
    ensures Convex(g, s - {x})
  {
    forall y, a | y in s - {x} && a in s - {x} && a in Past(g, y) && a != y
      ensures Linked(g, s - {x}, y, a)
    {
      assert Linked(g, s, y, a);
      ReadyHasNoAncestor(g, s, x, a);
    }
  }

  ghost predicate Topological(g: Graph, c: seq<Mark>) {
    forall i, j :: 0 <= i < j < |c| ==> c[j].id !in Past(g, c[i].id)
  }

  /** No block is coloured before one of its ancestors in a convex merge set. */
  lemma {:induction false} PaintTopological(g: Graph, k: int, t: Table, rest: set<Id>, blue: set<Id>)
    requires Paintable(g, t, rest) && Convex(g, rest)
    ensures Topological(g, Paint(g, k, t, rest, blue))
    decreases |rest|
  {
    if rest != {} {
      hide Paint, KCluster, Convex, Past, Topological;
      var x, ok, blue', c := PaintHead(g, k, t, rest, blue);
      ConvexRemoveReady(g, rest, x);
      PaintTopological(g, k, t, rest - {x}, blue');
      PaintIds(g, k, t, rest - {x}, blue');
      NoneAbove(g, rest, x, c);
      TopologicalCons(g, Mark(x, ok), c);
    }
  }

  lemma NoneAbove(g: Graph, rest: set<Id>, x: Id, c: seq<Mark>)
    requires rest <= g.Keys && x in Ready(g, rest) && Convex(g, rest)
    requires forall j :: 0 <= j < |c| ==> c[j].id in rest - {x}
    ensures forall j :: 0 <= j < |c| ==> c[j].id !in Past(g, x)
  {
    hide Convex, Past, Ready;
    forall j | 0 <= j < |c|
      ensures c[j].id !in Past(g, x)
    {
      ReadyHasNoAncestor(g, rest, x, c[j].id);
    }
  }

  lemma TopologicalCons(g: Graph, m: Mark, c: seq<Mark>)
    requires Topological(g, c) && forall j :: 0 <= j < |c| ==> c[j].id !in Past(g, m.id)
    ensures Topological(g, [m] + c)
  {
    hide Past;
    var d := [m] + c;
    forall i, j | 0 <= i < j < |d|
      ensures d[j].id !in Past(g, d[i].id)
    {
      assert d[j] == c[j - 1];
      if i > 0 {
        assert d[i] == c[i - 1];
      }
    }
  }

  lemma ColoursCons(m: Mark, c: seq<Mark>)
    ensures Blues([m] + c) == (if m.blue then [m.id] else []) + Blues(c)
    ensures Reds([m] + c) == (if m.blue then [] else [m.id]) + Reds(c)
    ensures Elems(Blues([m] + c)) == (if m.blue then {m.id} else {}) + Elems(Blues(c))
    ensures Elems(Reds([m] + c)) == (if m.blue then {} else {m.id}) + Elems(Reds(c))
  {
    assert ([m] + c)[1..] == c;
    assert [] + Blues(c) == Blues(c) && [] + Reds(c) == Reds(c);
    ElemsCons(m.id, Blues(c));
    ElemsCons(m.id, Reds(c));
  }

  lemma PaintDone(g: Graph, k: int, t: Table, blue: set<Id>)
    ensures Paint(g, k, t, {}, blue) == []
  {
  }

  lemma NoBlues(blue: set<Id>)
    ensures blue + Elems(Blues([])) == blue
  {
  }

  lemma BlueUnion(blue: set<Id>, m: Mark, c: seq<Mark>)
    ensures blue + Elems(Blues([m] + c)) == (if m.blue then blue + {m.id} else blue) + Elems(Blues(c))
  {
    ColoursCons(m, c);
  }

  /** Blue marks keep the blue set a K-cluster. */
  lemma {:induction false} PaintKCluster(g: Graph, k: int, t: Table, rest: set<Id>, blue: set<Id>)
    requires Paintable(g, t, rest) && KCluster(g, k, blue)
    ensures KCluster(g, k, blue + Elems(Blues(Paint(g, k, t, rest, blue))))
    decreases |rest|
  {
    hide Paint, KCluster, Paintable, Elems, Blues;
    if rest == {} {
      PaintDone(g, k, t, blue);
      NoBlues(blue);
    } else {
      var x, ok, blue', c := PaintHead(g, k, t, rest, blue);
      PaintKCluster(g, k, t, rest - {x}, blue');
      BlueUnion(blue, Mark(x, ok), c);
    }
  }

  lemma KClusterSubset(g: Graph, k: int, s: set<Id>, t: set<Id>)
    requires s <= t && KCluster(g, k, t)
    ensures KCluster(g, k, s)
  {
    forall x | x in s
      ensures |Anticone(g, x, s)| <= k
    {
      assert Anticone(g, x, s) <= Anticone(g, x, t);
      SubsetCard(Anticone(g, x, s), Anticone(g, x, t));
    }
  }

  /** The colouring is maximal: no red block fits into the final blue set. */
  lemma {:induction false} PaintMaximal(g: Graph, k: int, t: Table, rest: set<Id>, blue: set<Id>, x: Id)
    requires Paintable(g, t, rest) && x in Reds(Paint(g, k, t, rest, blue))
    ensures !KCluster(g, k, blue + Elems(Blues(Paint(g, k, t, rest, blue))) + {x})
    decreases |rest|
  {
    hide Paint, KCluster, Blues, Reds, Paintable;
    if rest == {} {
      PaintDone(g, k, t, blue);
      NoReds();
      assert false;
    } else {
      var y, ok, blue', c := PaintHead(g, k, t, rest, blue);
      ColoursCons(Mark(y, ok), c);
      BlueUnion(blue, Mark(y, ok), c);
      if x in Reds(c) {
        PaintMaximal(g, k, t, rest - {y}, blue', x);
      } else {
        var all := blue + Elems(Blues(c)) + {x};
        if KCluster(g, k, all) {
          KClusterSubset(g, k, blue + {y}, all);
          assert false;
        }
      }
    }
  }

  lemma NoReds()
    ensures Reds([]) == []
  {
  }

  /** The two colours split the marks. */
  lemma {:induction false} ColoursSplit(c: seq<Mark>)
    requires DistinctMarks(c)
    ensures Elems(Blues(c)) + Elems(Reds(c)) == MarkedIds(c)
    ensures Elems(Blues(c)) !! Elems(Reds(c))
    ensures Distinct(Blues(c)) && Distinct(Reds(c))
  {
    if c != [] {
      var m, d := c[0], c[1..];
      assert c == [m] + d;
      MarkedCons(m, d);
      ColoursSplit(d);
      ColoursCons(m, d);
      assert m.id !in Elems(Blues(d)) && m.id !in Elems(Reds(d));
    }
  }

  // ---------- the recurrence, unfolded ----------

  /** The parent the recurrence selects. */
  ghost function Selected(b: Blocks, k: int, n: Id): (s: Id)
    requires Grounded(b, n) && n != GENESIS
    ensures s in b[n].parents && s in ProperPast(b, n)
    ensures Elems(b[n].parents) <= ProperPast(b, n)
    ensures IsBest(TableOf(b, k, n), Elems(b[n].parents), s)
  {
    ParentsInPast(b, n);
    Best(TableOf(b, k, n), Elems(b[n].parents))
  }

  /** The merge set of `n` in colouring order. */
  ghost function Coloured(b: Blocks, k: int, n: Id): seq<Mark>
    requires Grounded(b, n) && n != GENESIS
  {
    Marks(b, k, n, TableOf(b, k, n))
  }

  lemma ColorGenesis(b: Blocks, k: int)
    requires Grounded(b, GENESIS)
    ensures Color(b, k, GENESIS) == Info(None, 0, 0, 0, {GENESIS}, [], [])
  {
  }

  lemma ColorUnfold(b: Blocks, k: int, n: Id)
    requires Grounded(b, n) && n != GENESIS
    ensures var s := Selected(b, k, n);
            var t := TableOf(b, k, n);
            var c := Coloured(b, k, n);
            && Grounded(b, s)
            && Paintable(Links(b), t, MergeSet(b, n, s))
            && c == Paint(Links(b), k, t, MergeSet(b, n, s), Color(b, k, s).bluePast)
            && (forall x :: x in Blues(c) ==> x in b)
            && var i := Color(b, k, n);
            && i.chosen == Some(s)
            && i.score == Color(b, k, s).score + 1 + |Blues(c)|
            && i.height == MaxHeight(t, Elems(b[n].parents)) + 1
            && i.work == Color(b, k, s).work + b[n].work + SeqWork(b, Blues(c))
            && i.bluePast == Color(b, k, s).bluePast + Elems(Blues(c)) + {n}
            && i.blues == Blues(c) && i.reds == Reds(c)
  {
    var s := Selected(b, k, n);
    var t := TableOf(b, k, n);
    ParentsInPast(b, n);
    GroundedInherits(b, n, s);
    MergePaintable(b, n, s, t);
    PaintIds(Links(b), k, t, MergeSet(b, n, s), t[s].bluePast);
    BluesIn(Coloured(b, k, n), MergeSet(b, n, s));
  }

  /** The selected parent has the most work, and the new block sits above every parent. */
  lemma ParentsDominated(b: Blocks, k: int, n: Id, p: Id)
    requires Grounded(b, n) && n != GENESIS && p in b[n].parents
    ensures Grounded(b, p) && Grounded(b, Selected(b, k, n))
    ensures Color(b, k, p).work <= Color(b, k, Selected(b, k, n)).work
    ensures Color(b, k, p).height < Color(b, k, n).height
  {
    ParentsInPast(b, n);
    assert p in Elems(b[n].parents);
    GroundedInherits(b, n, p);
    GroundedInherits(b, n, Selected(b, k, n));
    var t := TableOf(b, k, n);
    assert t[p] == Color(b, k, p);
    assert IsMaxHeight(t, Elems(b[n].parents), MaxHeight(t, Elems(b[n].parents)));
  }

  // ---------- theorems ----------

  lemma MergeSetConvex(b: Blocks, n: Id, s: Id)
    requires Grounded(b, n) && n != GENESIS && s in ProperPast(b, n)
    ensures Convex(Links(b), MergeSet(b, n, s))
  {
    var g := Links(b);
    var m := MergeSet(b, n, s);
    ParentsInPast(b, n);
    forall y, a | y in m && a in m && a in Past(g, y) && a != y
      ensures Linked(g, m, y, a)
    {
      PastUnfold(g, y);
      var p :| p in g[y] && a in Past(g, p);
      PastSelf(g, n);
      GroundedInherits(b, n, y);
      PastSelf(g, y);
      if p in Past(g, s) {
        PastTrans(g, s, p);
      }
    }
  }

  /**
   * Merge blues and merge reds partition the past of `n` minus `n` and minus the
   * selected parent's past, and no block is coloured before one of its ancestors.
   */
  lemma MergePartition(b: Blocks, k: int, n: Id)
    requires Grounded(b, n) && n != GENESIS
    ensures var i := Color(b, k, n);
            && i.chosen == Some(Selected(b, k, n))
            && Elems(i.blues) + Elems(i.reds) == ProperPast(b, n) - Past(Links(b), i.chosen.value)
            && Elems(i.blues) !! Elems(i.reds)
            && Distinct(i.blues) && Distinct(i.reds)
    ensures Topological(Links(b), Coloured(b, k, n))
    ensures DistinctMarks(Coloured(b, k, n))
  {
    var s := Selected(b, k, n);
    ColorUnfold(b, k, n);
    var t := TableOf(b, k, n);
    var blue := Color(b, k, s).bluePast;
    PaintCovers(Links(b), k, t, MergeSet(b, n, s), blue);
    ColoursSplit(Coloured(b, k, n));
    MergeSetConvex(b, n, s);
    PaintTopological(Links(b), k, t, MergeSet(b, n, s), blue);
  }

  lemma {:induction false} BluePastInPast(b: Blocks, k: int, n: Id)
    requires Grounded(b, n)
    ensures n in Color(b, k, n).bluePast
    ensures Color(b, k, n).bluePast <= Past(Links(b), n)
    decreases |Past(Links(b), n)|
  {
    PastSelf(Links(b), n);
    if n != GENESIS {
      var s := Selected(b, k, n);
      GroundedInherits(b, n, s);
      BluePastInPast(b, k, s);
      PastTrans(Links(b), n, s);
      ColorUnfold(b, k, n);
      MergePartition(b, k, n);
    }
  }

  lemma AddTipKCluster(g: Graph, k: int, s: set<Id>, n: Id)
    requires k >= 0 && KCluster(g, k, s) && s <= Past(g, n)
    ensures KCluster(g, k, s + {n})
  {
    PastSelf(g, n);
    hide Past;
    forall x | x in s + {n}
      ensures |Anticone(g, x, s + {n})| <= k
    {
      if x == n {
        assert Anticone(g, n, s + {n}) == {};
      } else {
        assert Anticone(g, x, s + {n}) == Anticone(g, x, s);
      }
    }
  }

  /** Every blue past is a K-cluster. */
  lemma {:induction false} BluePastKCluster(b: Blocks, k: int, n: Id)
    requires Grounded(b, n) && k >= 0
    ensures KCluster(Links(b), k, Color(b, k, n).bluePast)
    decreases |Past(Links(b), n)|
  {
    var g := Links(b);
    if n == GENESIS {
      assert KCluster(g, k, {});
      AddTipKCluster(g, k, {}, n);
      assert {} + {n} == Color(b, k, n).bluePast;
    } else {
      var s := Selected(b, k, n);
      GroundedInherits(b, n, s);
      BluePastKCluster(b, k, s);
      ColorUnfold(b, k, n);
      PaintKCluster(g, k, TableOf(b, k, n), MergeSet(b, n, s), Color(b, k, s).bluePast);
      BluePastInPast(b, k, n);
      AddTipKCluster(g, k, Color(b, k, s).bluePast + Elems(Color(b, k, n).blues), n);
    }
  }

  /** A red block never fits into the blue past that rejected it. */
  lemma RedsDoNotFit(b: Blocks, k: int, n: Id, x: Id)
    requires Grounded(b, n) && n != GENESIS && x in Color(b, k, n).reds
    ensures !KCluster(Links(b), k, Color(b, k, n).bluePast + {x})
  {
    hide Color, Paint, KCluster, TableOf, Past, IsBest, Blues, Reds;
    ColorUnfold(b, k, n);
    var s, c := Selected(b, k, n), Coloured(b, k, n);
    PaintMaximal(Links(b), k, TableOf(b, k, n), MergeSet(b, n, s), Color(b, k, s).bluePast, x);
    var fitting := Color(b, k, s).bluePast + Elems(Blues(c)) + {x};
    if KCluster(Links(b), k, Color(b, k, n).bluePast + {x}) {
      KClusterSubset(Links(b), k, fitting, Color(b, k, n).bluePast + {x});
      assert false;
    }
  }

  /** With K = 0 the blue past is a chain. */
  lemma BluePastChain(b: Blocks, n: Id, x: Id, y: Id)
    requires Grounded(b, n)
    requires x in Color(b, 0, n).bluePast && y in Color(b, 0, n).bluePast
    ensures x in Past(Links(b), y) || y in Past(Links(b), x)
  {
    BluePastKCluster(b, 0, n);
    var a := Anticone(Links(b), x, Color(b, 0, n).bluePast);
    assert a == {};
    assert y !in a;
  }

  // ---------- score and work ----------

  /** Total work of a set of blocks. */
  ghost function SetWork(b: Blocks, s: set<Id>): int
    requires s <= b.Keys
  {
    SetSum(map n | n in b :: b[n].work, s)
  }

  lemma SetWorkAdd(b: Blocks, s: set<Id>, y: Id)
    requires s <= b.Keys && y in b && y !in s
    ensures SetWork(b, s + {y}) == SetWork(b, s) + b[y].work
  {
    SumAdd(map n | n in b :: b[n].work, s, y);
  }

  lemma {:induction false} SetWorkSeq(b: Blocks, s: set<Id>, q: seq<Id>)
    requires s <= b.Keys && Elems(q) <= b.Keys && Distinct(q) && s !! Elems(q)
    ensures SetWork(b, s + Elems(q)) == SetWork(b, s) + SeqWork(b, q)
    ensures |s + Elems(q)| == |s| + |q|
  {
    hide SetWork;
    if q == [] {
      assert s + Elems(q) == s;
    } else {
      hide Elems, Distinct;
      DistinctHead(q);
      SetWorkSeq(b, s, q[1..]);
      SetWorkAdd(b, s + Elems(q[1..]), q[0]);
      assert s + Elems(q) == s + Elems(q[1..]) + {q[0]};
    }
  }

  lemma SetWorkGrows(b: Blocks, s: set<Id>, q: seq<Id>, n: Id)
    requires s <= b.Keys && Elems(q) <= b.Keys && Distinct(q) && s !! Elems(q)
    requires n in b && n !in s && n !in Elems(q)
    ensures SetWork(b, s + Elems(q) + {n}) == SetWork(b, s) + SeqWork(b, q) + b[n].work
    ensures |s + Elems(q) + {n}| == |s| + |q| + 1
  {
    hide SetWork;
    SetWorkSeq(b, s, q);
    SetWorkAdd(b, s + Elems(q), n);
  }

  lemma NoWork(b: Blocks)
    ensures SetWork(b, {}) == 0
  {
  }

  /** Score and cumulative work are the size and the total work of the blue past. */
  lemma {:induction false} ScoreAndWork(b: Blocks, k: int, n: Id)
    requires Grounded(b, n)
    ensures Color(b, k, n).bluePast <= b.Keys
    ensures Color(b, k, n).score == |Color(b, k, n).bluePast| - 1
    ensures Color(b, k, n).work == SetWork(b, Color(b, k, n).bluePast)
    decreases |Past(Links(b), n)|
  {
    hide Color, Past, Coloured, Paint, SetWork, SeqWork, TableOf, Topological, DistinctMarks;
    BluePastInPast(b, k, n);
    PastInKeys(Links(b), n);
    if n == GENESIS {
      NoWork(b);
      ColorGenesis(b, k);
      SetWorkAdd(b, {}, GENESIS);
      assert {} + {GENESIS} == {GENESIS};
    } else {
      var s := Selected(b, k, n);
      GroundedInherits(b, n, s);
      ScoreAndWork(b, k, s);
      BluePastInPast(b, k, s);
      ColorUnfold(b, k, n);
      MergePartition(b, k, n);
      GroundedInherits(b, n, s);
      SetWorkGrows(b, Color(b, k, s).bluePast, Color(b, k, n).blues, n);
    }
  }

  lemma {:induction false} SeqWorkNonNegative(b: Blocks, q: seq<Id>)
    requires forall x :: x in q ==> x in b && b[x].work >= 0
    ensures SeqWork(b, q) >= 0
  {
    if q != [] {
      SeqWorkNonNegative(b, q[1..]);
    }
  }

  /** Cumulative work strictly exceeds that of every proper ancestor. */
  lemma {:induction false} WorkExceedsAncestors(b: Blocks, k: int, n: Id, a: Id)
    requires Grounded(b, n) && a in ProperPast(b, n)
    ensures Grounded(b, a)
    ensures Color(b, k, a).work < Color(b, k, n).work
    ensures Color(b, k, a).height < Color(b, k, n).height
    decreases |Past(Links(b), n)|
  {
    var g := Links(b);
    GroundedInherits(b, n, a);
    PastUnfold(g, n);
    var p :| p in g[n] && a in Past(g, p);
    ColorUnfold(b, k, n);
    SeqWorkNonNegative(b, Color(b, k, n).blues);
    ParentsDominated(b, k, n, p);
    if a != p {
      ParentsInPast(b, n);
      GroundedInherits(b, n, p);
      WorkExceedsAncestors(b, k, p, a);
    }
  }

  // ---------- independence of arrival order ----------

  /** `b'` holds every block of `b`, with parents possibly listed in another order. */
  ghost predicate Extends(b: Blocks, b': Blocks) {
    forall n :: n in b ==>
      n in b' && Elems(b[n].parents) == Elems(b'[n].parents) && b[n].work == b'[n].work
  }

  lemma ExtendsPast(b: Blocks, b': Blocks, n: Id)
    requires Extends(b, b') && Closed(Links(b)) && n in b
    ensures Past(Links(b), n) == Past(Links(b'), n)
  {
    PastInKeys(Links(b), n);
    PastSame(Links(b), Links(b'), n);
  }

  lemma ExtendsGrounded(b: Blocks, b': Blocks, n: Id)
    requires Extends(b, b') && Rooted(b') && Grounded(b, n)
    ensures Grounded(b', n)
  {
    var g, g' := Links(b), Links(b');
    ExtendsPast(b, b', n);
    PastInKeys(g, n);
    forall x | x in Past(g', n)
      ensures LoopFree(g', x)
    {
      forall p | p in g'[x]
        ensures x !in Past(g', p)
      {
        assert p in Elems(b'[x].parents);
        assert p in Elems(b[x].parents);
        ClosedParent(b, x, p);
        ExtendsPast(b, b', p);
      }
    }
  }

  /** Colouring looks only at the parent sets, pasts and table rows of the blocks involved. */
  lemma {:induction false} PaintAgrees(
      g: Graph, g': Graph, k: int, t: Table, t': Table, rest: set<Id>, blue: set<Id>)
    requires Paintable(g, t, rest) && Paintable(g', t', rest)
    requires forall x :: x in rest ==> Elems(g[x]) == Elems(g'[x]) && t[x] == t'[x]
    requires forall x :: x in rest + blue ==> Past(g, x) == Past(g', x)
    ensures Paint(g, k, t, rest, blue) == Paint(g', k, t', rest, blue)
    decreases |rest|
  {
    if rest != {} {
      var x := Next(g, t, rest);
      assert Ready(g, rest) == Ready(g', rest);
      assert IsBest(t', Ready(g', rest), x);
      BestUnique(t', Ready(g', rest), x, Next(g', t', rest));
      forall y | y in blue + {x}
        ensures Anticone(g, y, blue + {x}) == Anticone(g', y, blue + {x})
      {
      }
      var ok := KCluster(g, k, blue + {x});
      assert ok == KCluster(g', k, blue + {x});
      PaintAgrees(g, g', k, t, t', rest - {x}, if ok then blue + {x} else blue);
    }
  }

  /**
   * The colouring of a block depends only on its past: adding blocks and
   * reordering parent lists change nothing.
   */
  lemma {:induction false} ColorExtends(b: Blocks, b': Blocks, k: int, n: Id)
    requires Extends(b, b') && Rooted(b') && Grounded(b, n)
    ensures Grounded(b', n)
    ensures Color(b, k, n) == Color(b', k, n)
    decreases |Past(Links(b), n)|
  {
    ExtendsGrounded(b, b', n);
    ExtendsPast(b, b', n);
    var t, t' := TableOf(b, k, n), TableOf(b', k, n);
    forall x | x in ProperPast(b, n)
      ensures t[x] == t'[x]
    {
      GroundedInherits(b, n, x);
      GroundedInherits(b', n, x);
      ColorExtends(b, b', k, x);
    }
    assert t == t';
    if n != GENESIS {
      ColorUnfold(b, k, n);
      ColorUnfold(b', k, n);
      StepAgrees(b, b', k, n);
    }
  }

  lemma {:induction false} SeqWorkSame(b: Blocks, b': Blocks, q: seq<Id>)
    requires Extends(b, b') && forall x :: x in q ==> x in b
    ensures SeqWork(b, q) == SeqWork(b', q)
  {
    if q != [] {
      SeqWorkSame(b, b', q[1..]);
    }
  }

  lemma ColouredAgrees(b: Blocks, b': Blocks, k: int, n: Id)
    requires Extends(b, b') && Grounded(b, n) && Grounded(b', n) && n != GENESIS
    requires TableOf(b, k, n) == TableOf(b', k, n)
    ensures Selected(b, k, n) == Selected(b', k, n)
    ensures Coloured(b, k, n) == Coloured(b', k, n)
  {
    hide Color, Paint, Step;
    var g, g', t := Links(b), Links(b'), TableOf(b, k, n);
    var s := Selected(b, k, n);
    BestUnique(t, Elems(b[n].parents), s, Selected(b', k, n));
    ColorUnfold(b, k, n);
    ColorUnfold(b', k, n);
    PastInKeys(g, n);
    forall x | x in Past(g, n)
      ensures Past(g, x) == Past(g', x)
    {
      ExtendsPast(b, b', x);
    }
    PastSelf(g, n);
    BluePastInPast(b, k, s);
    PastTrans(g, n, s);
    PaintAgrees(g, g', k, t, t, MergeSet(b, n, s), t[s].bluePast);
  }

  lemma SelectedRow(b: Blocks, k: int, n: Id)
    requires Grounded(b, n) && n != GENESIS
    ensures Selected(b, k, n) in TableOf(b, k, n) && Grounded(b, Selected(b, k, n))
    ensures TableOf(b, k, n)[Selected(b, k, n)] == Color(b, k, Selected(b, k, n))
  {
    hide Color, IsBest;
    GroundedInherits(b, n, Selected(b, k, n));
  }

  lemma StepAgrees(b: Blocks, b': Blocks, k: int, n: Id)
    requires Extends(b, b') && Grounded(b, n) && Grounded(b', n) && n != GENESIS
    requires TableOf(b, k, n) == TableOf(b', k, n)
    ensures Color(b, k, n) == Color(b', k, n)
  {
    hide Color, Paint, Step, Marks, Coloured, Blues, Reds, MergeSet, MaxHeight, SeqWork, TableOf, Past, IsBest;
    ColorUnfold(b, k, n);
    ColorUnfold(b', k, n);
    ColouredAgrees(b, b', k, n);
    SelectedRow(b, k, n);
    SelectedRow(b', k, n);
    SeqWorkSame(b, b', Blues(Coloured(b, k, n)));
  }
}
