/** What the returned verdicts say, without the recurrence that computes them. */
module GhostdagVerdicts {
  import opened Ids
  import opened Dag
  import opened Ghostdag
  import opened GhostdagTheorems
  import opened GhostdagOracle

  lemma VerdictGenesis(b: Blocks, k: int, v: map<Id, Verdict>)
    requires Returns(b, k, v) && GENESIS in b
    ensures v[GENESIS] == Verdict(None, 0, 0, [], [])
  {
    hide Color;
    assert Grounded(b, GENESIS);
    ColorGenesis(b, k);
  }

  /** A verdict names a parent, accumulates its blues and splits the rest of the past. */
  lemma VerdictRow(b: Blocks, k: int, v: map<Id, Verdict>, n: Id)
    requires Returns(b, k, v) && n in b && n != GENESIS
    ensures v[n].chosen.Some? && v[n].chosen.value in b[n].parents && v[n].chosen.value in b
    ensures (forall x :: x in v[n].blues ==> x in b) && (forall x :: x in v[n].reds ==> x in b)
    ensures var s := v[n].chosen.value;
            && v[n].score == v[s].score + 1 + |v[n].blues|
            && v[n].work == v[s].work + b[n].work + SeqWork(b, v[n].blues)
            && Elems(v[n].blues) + Elems(v[n].reds) == Past(Links(b), n) - {n} - Past(Links(b), s)
            && Elems(v[n].blues) !! Elems(v[n].reds)
            && Distinct(v[n].blues) && Distinct(v[n].reds)
  {
    hide Color, Past, Paint, TableOf, Topological, DistinctMarks, Blues, Reds, IsBest;
    assert Grounded(b, n);
    ColorUnfold(b, k, n);
    MergePartition(b, k, n);
    PastInKeys(Links(b), n);
    var s := Selected(b, k, n);
    assert s in b by { ParentsInPast(b, n); }
    assert Grounded(b, s);
    var i := Color(b, k, n);
    assert forall x :: x in i.reds ==> x in Elems(i.reds);
  }

  /** The block, its blues, and the blue set of its selected parent. */
  ghost function BlueSet(b: Blocks, k: int, v: map<Id, Verdict>, n: Id): set<Id>
    requires Returns(b, k, v) && n in b
    decreases |Past(Links(b), n)|
  {
    if n == GENESIS then {n}
    else
      VerdictRow(b, k, v, n);
      var s := v[n].chosen.value;
      assert Grounded(b, n);
      ParentsInPast(b, n);
      GroundedInherits(b, n, s);
      BlueSet(b, k, v, s) + Elems(v[n].blues) + {n}
  }

  lemma {:induction false} BlueSetIs(b: Blocks, k: int, v: map<Id, Verdict>, n: Id)
    requires Returns(b, k, v) && n in b
    ensures Grounded(b, n) && BlueSet(b, k, v, n) == Color(b, k, n).bluePast
    decreases |Past(Links(b), n)|
  {
    hide Color, Past, Paint, TableOf, Blues, Reds, IsBest;
    assert Grounded(b, n);
    if n == GENESIS {
      ColorGenesis(b, k);
    } else {
      VerdictRow(b, k, v, n);
      ColorUnfold(b, k, n);
      ParentsInPast(b, n);
      GroundedInherits(b, n, Selected(b, k, n));
      BlueSetIs(b, k, v, Selected(b, k, n));
    }
  }

  /** The blue set of a verdict is a K-cluster of the right size and work. */
  lemma VerdictBlues(b: Blocks, k: int, v: map<Id, Verdict>, n: Id)
    requires Returns(b, k, v) && n in b && k >= 0
    ensures n in BlueSet(b, k, v, n) && BlueSet(b, k, v, n) <= Past(Links(b), n)
    ensures BlueSet(b, k, v, n) <= b.Keys
    ensures KCluster(Links(b), k, BlueSet(b, k, v, n))
    ensures v[n].score == |BlueSet(b, k, v, n)| - 1
    ensures v[n].work == SetWork(b, BlueSet(b, k, v, n))
  {
    hide Color, Past, KCluster, SetWork;
    BlueSetIs(b, k, v, n);
    BluePastInPast(b, k, n);
    BluePastKCluster(b, k, n);
    ScoreAndWork(b, k, n);
  }

  /** A reported red is outside the blue set, and would break it. */
  lemma VerdictReds(b: Blocks, k: int, v: map<Id, Verdict>, n: Id, x: Id)
    requires Returns(b, k, v) && n in b && n != GENESIS && x in v[n].reds && k >= 0
    ensures x !in BlueSet(b, k, v, n)
    ensures !KCluster(Links(b), k, BlueSet(b, k, v, n) + {x})
  {
    hide Color, Past, KCluster;
    BlueSetIs(b, k, v, n);
    RedsDoNotFit(b, k, n, x);
    if x in BlueSet(b, k, v, n) {
      assert BlueSet(b, k, v, n) + {x} == BlueSet(b, k, v, n);
      BluePastKCluster(b, k, n);
      assert false;
    }
  }

  // ---------- heights and the choice among parents ----------

  /** A block's height is one above its highest parent's. */
  lemma HeightOverParents(b: Blocks, k: int, n: Id)
    requires Grounded(b, n) && n != GENESIS
    ensures forall p :: p in b[n].parents ==> Grounded(b, p) && Color(b, k, p).height < Color(b, k, n).height
    ensures exists p :: p in b[n].parents && Grounded(b, p) && Color(b, k, p).height == Color(b, k, n).height - 1
  {
    hide Color, Past;
    ParentsInPast(b, n);
    forall p | p in b[n].parents
      ensures Grounded(b, p) && TableOf(b, k, n)[p] == Color(b, k, p)
      ensures Color(b, k, p).height < Color(b, k, n).height
    {
      assert p in Elems(b[n].parents);
      GroundedInherits(b, n, p);
      ParentsDominated(b, k, n, p);
    }
    ColorUnfold(b, k, n);
    var t := TableOf(b, k, n);
    assert IsMaxHeight(t, Elems(b[n].parents), Color(b, k, n).height - 1);
  }

  /** No walk is longer than the height of its first block. */
  lemma {:induction false} WalkWithinHeight(b: Blocks, k: int, w: seq<Id>)
    requires Walk(Links(b), w) && Grounded(b, w[0])
    ensures Grounded(b, w[|w| - 1])
    ensures |w| - 1 + Color(b, k, w[|w| - 1]).height <= Color(b, k, w[0]).height
  {
    hide Color, Past, Grounded;
    if |w| > 1 {
      GenesisHasNoParent(b, w);
      HeightOverParents(b, k, w[0]);
      assert w[1] in b[w[0]].parents;
      WalkWithinHeight(b, k, w[1..]);
    }
  }

  lemma GenesisHasNoParent(b: Blocks, w: seq<Id>)
    requires Walk(Links(b), w) && Grounded(b, w[0]) && |w| > 1
    ensures w[0] in b && w[0] != GENESIS && w[1] in b[w[0]].parents && Walk(Links(b), w[1..])
  {
  }

  /** Some walk to genesis is as long as the height says. */
  lemma {:induction false} HeightReached(b: Blocks, k: int, n: Id) returns (w: seq<Id>)
    requires Grounded(b, n)
    ensures WalkBetween(Links(b), w, n, GENESIS) && |w| == Color(b, k, n).height + 1
    decreases |Past(Links(b), n)|
  {
    hide Color, Past;
    if n == GENESIS {
      ColorGenesis(b, k);
      w := [n];
    } else {
      HeightOverParents(b, k, n);
      var p :| p in b[n].parents && Grounded(b, p) && Color(b, k, p).height == Color(b, k, n).height - 1;
      ParentsInPast(b, n);
      assert p in Elems(b[n].parents);
      GroundedInherits(b, n, p);
      var u := HeightReached(b, k, p);
      w := [n] + u;
      assert w[1..] == u;
    }
  }

  /** The height used to break ties is the length of the longest parent walk, which ends in genesis. */
  lemma HeightIsLongestWalk(b: Blocks, k: int, n: Id)
    requires Grounded(b, n)
    ensures exists w :: WalkBetween(Links(b), w, n, GENESIS) && |w| == Color(b, k, n).height + 1
    ensures forall w, y :: WalkBetween(Links(b), w, n, y) ==> |w| <= Color(b, k, n).height + 1
  {
    hide Color, Past, Grounded;
    var w := HeightReached(b, k, n);
    forall u, y | WalkBetween(Links(b), u, n, y)
      ensures |u| <= Color(b, k, n).height + 1
    {
      WalkWithinHeight(b, k, u);
      HeightNonNegative(b, k, u[|u| - 1]);
    }
  }

  lemma HeightNonNegative(b: Blocks, k: int, n: Id)
    requires Grounded(b, n)
    ensures Color(b, k, n).height >= 0
  {
    hide Color;
    var w := HeightReached(b, k, n);
  }

  /** More work, then more score, then more height, then the smaller label. */
  ghost predicate Precedes(b: Blocks, k: int, v: map<Id, Verdict>, x: Id, y: Id) {
    && x in v && y in v && Grounded(b, x) && Grounded(b, y)
    && var hx, hy := Color(b, k, x).height, Color(b, k, y).height;
       || v[x].work > v[y].work
       || (v[x].work == v[y].work && v[x].score > v[y].score)
       || (v[x].work == v[y].work && v[x].score == v[y].score && hx > hy)
       || (v[x].work == v[y].work && v[x].score == v[y].score && hx == hy && Less(x, y))
  }

  lemma BetterPrecedes(b: Blocks, k: int, v: map<Id, Verdict>, n: Id, x: Id, y: Id)
    requires Returns(b, k, v) && n in b && Grounded(b, n)
    requires x in ProperPast(b, n) && y in ProperPast(b, n) && Better(TableOf(b, k, n), x, y)
    ensures Precedes(b, k, v, x, y)
  {
    hide Color, Past;
    GroundedInherits(b, n, x);
    GroundedInherits(b, n, y);
    PastInKeys(Links(b), n);
    assert Grounded(b, x) && Grounded(b, y);
  }

  /** The selected parent comes before every other one. */
  lemma SelectedFirst(b: Blocks, k: int, v: map<Id, Verdict>, n: Id, p: Id)
    requires Returns(b, k, v) && n in b && n != GENESIS && p in b[n].parents && v[n].chosen != Some(p)
    ensures v[n].chosen.Some? && Precedes(b, k, v, v[n].chosen.value, p)
  {
    hide Color, Past, Precedes, TableOf, Better;
    VerdictRow(b, k, v, n);
    assert Grounded(b, n);
    ColorUnfold(b, k, n);
    ParentsInPast(b, n);
    assert p in Elems(b[n].parents);
    BetterPrecedes(b, k, v, n, Selected(b, k, n), p);
  }

  // ---------- the order of colouring ----------

  /** The marks from position `i` on. */
  ghost function Remaining(c: seq<Mark>, i: nat): set<Id>
    requires i <= |c|
  {
    MarkedIds(c[i..])
  }

  /** Block `j` had no parent left to colour when block `i` was taken. */
  ghost predicate WasReady(g: Graph, c: seq<Mark>, i: nat, j: nat)
    requires i < |c| && j < |c|
  {
    c[j].id in g && Elems(g[c[j].id]) * Remaining(c, i) == {}
  }

  lemma HeadGreedy(g: Graph, k: int, t: Table, rest: set<Id>, blue: set<Id>, j: nat)
    requires Paintable(g, t, rest) && 0 < j < |Paint(g, k, t, rest, blue)|
    requires WasReady(g, Paint(g, k, t, rest, blue), 0, j)
    ensures var c := Paint(g, k, t, rest, blue);
            c[0].id in t && c[j].id in t && Better(t, c[0].id, c[j].id)
  {
    hide Paint, Better, Paintable, KCluster;
    var c := Paint(g, k, t, rest, blue);
    if rest == {} {
      PaintDone(g, k, t, blue);
      assert false;
    } else {
      PaintCovers(g, k, t, rest, blue);
      PaintIds(g, k, t, rest, blue);
      NextFirst(g, k, t, rest, blue);
      assert c[0..] == c;
      assert c[j].id in rest && c[j].id in Ready(g, rest) by { InTable(g, t, rest); }
      assert c[0].id != c[j].id;
      InTable(g, t, rest);
    }
  }

  lemma InTable(g: Graph, t: Table, rest: set<Id>)
    requires Paintable(g, t, rest)
    ensures rest <= g.Keys && rest <= t.Keys
  {
  }

  /** Each block comes, in the preference order, before every later one that was ready when it was taken. */
  lemma {:induction false} PaintGreedy(
      g: Graph, k: int, t: Table, rest: set<Id>, blue: set<Id>, i: nat, j: nat)
    requires Paintable(g, t, rest) && i < j < |Paint(g, k, t, rest, blue)|
    requires WasReady(g, Paint(g, k, t, rest, blue), i, j)
    ensures var c := Paint(g, k, t, rest, blue);
            c[i].id in t && c[j].id in t && Better(t, c[i].id, c[j].id)
    decreases |rest|
  {
    hide Paint, KCluster, Better, Paintable, Ready;
    if rest == {} {
      PaintDone(g, k, t, blue);
      assert false;
    } else if i == 0 {
      HeadGreedy(g, k, t, rest, blue, j);
    } else {
      var x, ok, blue', c := PaintHead(g, k, t, rest, blue);
      assert ([Mark(x, ok)] + c)[i..] == c[i - 1..];
      PaintGreedy(g, k, t, rest - {x}, blue', i - 1, j - 1);
    }
  }

  lemma NextFirst(g: Graph, k: int, t: Table, rest: set<Id>, blue: set<Id>)
    requires rest != {} && Paintable(g, t, rest)
    ensures Paint(g, k, t, rest, blue) != []
    ensures IsBest(t, Ready(g, rest), Paint(g, k, t, rest, blue)[0].id)
  {
    ReadyExists(g, t, rest);
  }

  /** The blocks of a merge set in the order they were coloured, each ready one after those it follows. */
  ghost predicate ColouringOf(b: Blocks, k: int, v: map<Id, Verdict>, n: Id, c: seq<Mark>)
    requires n in v && v[n].chosen.Some?
  {
    && Blues(c) == v[n].blues && Reds(c) == v[n].reds && DistinctMarks(c)
    && MarkedIds(c) == Past(Links(b), n) - {n} - Past(Links(b), v[n].chosen.value)
    && Topological(Links(b), c)
    && forall i, j :: 0 <= i < j < |c| && WasReady(Links(b), c, i, j) ==> Precedes(b, k, v, c[i].id, c[j].id)
  }

  /** The reported lists are the blues and the reds of one greedy topological colouring, in order. */
  lemma VerdictOrder(b: Blocks, k: int, v: map<Id, Verdict>, n: Id)
    requires Returns(b, k, v) && n in b && n != GENESIS
    ensures v[n].chosen.Some? && exists c :: ColouringOf(b, k, v, n, c)
  {
    hide Color, Past, Precedes, TableOf, Better, Paint, KCluster, Topological, IsBest, WasReady;
    VerdictRow(b, k, v, n);
    assert Grounded(b, n);
    ColorUnfold(b, k, n);
    MergePartition(b, k, n);
    var t, s, c := TableOf(b, k, n), Selected(b, k, n), Coloured(b, k, n);
    var blue := Color(b, k, s).bluePast;
    PaintCovers(Links(b), k, t, MergeSet(b, n, s), blue);
    PaintIds(Links(b), k, t, MergeSet(b, n, s), blue);
    forall i, j | 0 <= i < j < |c| && WasReady(Links(b), c, i, j)
      ensures Precedes(b, k, v, c[i].id, c[j].id)
    {
      PaintGreedy(Links(b), k, t, MergeSet(b, n, s), blue, i, j);
      BetterPrecedes(b, k, v, n, c[i].id, c[j].id);
    }
    assert ColouringOf(b, k, v, n, c);
  }
}
