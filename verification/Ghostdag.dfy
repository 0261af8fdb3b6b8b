/**
 * The GHOSTDAG recurrence as a well-founded function of a block's past:
 * selected parent, greedy colouring of the merge set, score and work.
 */
module Ghostdag {
  import opened Ids
  import opened Dag

  datatype Block = Block(parents: seq<Id>, work: int)

  type Blocks = map<Id, Block>

  /** Everything the recurrence records for one block besides its past. */
  datatype Info = Info(
    chosen: Option<Id>, score: int, work: int, height: int,
    bluePast: set<Id>, blues: seq<Id>, reds: seq<Id>)

  type Table = map<Id, Info>

  function Links(b: Blocks): Graph {
    map n | n in b :: b[n].parents
  }

  // ---------- the preference order ----------

  /** The sort key `(-cumulative, -score, -height, id)`. */
  predicate Better(t: Table, x: Id, y: Id)
    requires x in t && y in t
  {
    if t[x].work != t[y].work then t[x].work > t[y].work
    else if t[x].score != t[y].score then t[x].score > t[y].score
    else if t[x].height != t[y].height then t[x].height > t[y].height
    else Less(x, y)
  }

  ghost predicate IsBest(t: Table, s: set<Id>, x: Id)
    requires s <= t.Keys
  {
    x in s && forall y :: y in s && y != x ==> Better(t, x, y)
  }

  lemma BetterTransitive(t: Table, x: Id, y: Id, z: Id)
    requires x in t && y in t && z in t
    requires Better(t, x, y) && Better(t, y, z)
    ensures Better(t, x, z)
  {
    if Less(x, y) && Less(y, z) {
      LessTransitive(x, y, z);
    }
  }

  lemma BetterTotal(t: Table, x: Id, y: Id)
    requires x in t && y in t
    ensures x == y || Better(t, x, y) || Better(t, y, x)
  {
    LessTotal(x, y);
  }

  lemma BestUnique(t: Table, s: set<Id>, x: Id, y: Id)
    requires s <= t.Keys && IsBest(t, s, x) && IsBest(t, s, y)
    ensures x == y
  {
    if x != y {
      BetterTransitive(t, x, y, x);
      LessIrreflexive(x);
    }
  }

  /** Finds the first element under the sort key. */
  method FindBest(t: Table, s: set<Id>) returns (m: Id)
    requires s != {} && s <= t.Keys
    ensures IsBest(t, s, m)
  {
    m :| m in s;
    var rest := s - {m};
    while rest != {}
      invariant rest <= s && m in s
      invariant forall y :: y in s && y !in rest && y != m ==> Better(t, m, y)
      decreases |rest|
    {
      var c :| c in rest;
      if Better(t, c, m) {
        forall y | y in s && y !in rest && y != m
          ensures Better(t, c, y)
        {
          BetterTransitive(t, c, m, y);
        }
        m := c;
      } else {
        BetterTotal(t, c, m);
      }
      rest := rest - {c};
    }
  }

  lemma {:induction false} BestExists(t: Table, s: set<Id>)
    requires s != {} && s <= t.Keys
    ensures exists m :: IsBest(t, s, m)
    decreases |s|
  {
    var c :| c in s;
    if s == {c} {
      assert IsBest(t, s, c);
    } else {
      BestExists(t, s - {c});
      var d :| IsBest(t, s - {c}, d);
      BetterTotal(t, c, d);
      if Better(t, d, c) {
        assert IsBest(t, s, d);
      } else {
        forall y | y in s && y != c && y != d
          ensures Better(t, c, y)
        {
          BetterTransitive(t, c, d, y);
        }
        assert IsBest(t, s, c);
      }
    }
  }

  ghost function Best(t: Table, s: set<Id>): (m: Id)
    requires s != {} && s <= t.Keys
    ensures IsBest(t, s, m)
  {
    BestExists(t, s);
    var m :| IsBest(t, s, m);
    m
  }

  // ---------- K-clusters ----------

  ghost predicate Incomparable(g: Graph, x: Id, y: Id) {
    x !in Past(g, y) && y !in Past(g, x)
  }

  ghost function Anticone(g: Graph, x: Id, s: set<Id>): set<Id> {
    set y | y in s && Incomparable(g, x, y)
  }

  /** No member is incomparable to more than `k` others. */
  ghost predicate KCluster(g: Graph, k: int, s: set<Id>) {
    forall x :: x in s ==> |Anticone(g, x, s)| <= k
  }

  // ---------- greedy colouring ----------

  /** Members of the rest of the merge set with no parent still in it. */
  ghost function Ready(g: Graph, rest: set<Id>): set<Id>
    requires rest <= g.Keys
  {
    set x | x in rest && Elems(g[x]) * rest == {}
  }

  datatype Mark = Mark(id: Id, blue: bool)

  ghost predicate Paintable(g: Graph, t: Table, rest: set<Id>) {
    && rest <= g.Keys
    && rest <= t.Keys
    && forall x :: x in rest ==> LoopFree(g, x)
  }

  lemma ReadyExists(g: Graph, t: Table, rest: set<Id>)
    requires rest != {} && Paintable(g, t, rest)
    ensures Ready(g, rest) != {}
  {
    var m := SourceExists(g, rest);
    assert m in Ready(g, rest);
  }

  /** The next block to colour. */
  ghost function Next(g: Graph, t: Table, rest: set<Id>): (x: Id)
    requires rest != {} && Paintable(g, t, rest)
    ensures x in rest && x in Ready(g, rest)
  {
    ReadyExists(g, t, rest);
    Best(t, Ready(g, rest))
  }

  /** A block turns blue exactly when the blue set with it is still a K-cluster. */
  ghost function Paint(g: Graph, k: int, t: Table, rest: set<Id>, blue: set<Id>): seq<Mark>
    requires Paintable(g, t, rest)
    decreases |rest|
  {
    if rest == {} then []
    else
      var x := Next(g, t, rest);
      var ok := KCluster(g, k, blue + {x});
      [Mark(x, ok)] + Paint(g, k, t, rest - {x}, if ok then blue + {x} else blue)
  }

  function Blues(c: seq<Mark>): seq<Id> {
    if c == [] then [] else (if c[0].blue then [c[0].id] else []) + Blues(c[1..])
  }

  function Reds(c: seq<Mark>): seq<Id> {
    if c == [] then [] else (if c[0].blue then [] else [c[0].id]) + Reds(c[1..])
  }

  function SeqWork(b: Blocks, s: seq<Id>): int
    requires forall x :: x in s ==> x in b
  {
    if s == [] then 0 else b[s[0]].work + SeqWork(b, s[1..])
  }

  ghost predicate IsMaxHeight(t: Table, s: set<Id>, h: int)
    requires s <= t.Keys
  {
    && (exists x :: x in s && t[x].height == h)
    && forall x :: x in s ==> t[x].height <= h
  }

  lemma {:induction false} MaxHeightExists(t: Table, s: set<Id>)
    requires s != {} && s <= t.Keys
    ensures exists h :: IsMaxHeight(t, s, h)
    decreases |s|
  {
    var c :| c in s;
    if s == {c} {
      assert IsMaxHeight(t, s, t[c].height);
    } else {
      MaxHeightExists(t, s - {c});
      var h :| IsMaxHeight(t, s - {c}, h);
      assert IsMaxHeight(t, s, if h > t[c].height then h else t[c].height);
    }
  }

  ghost function MaxHeight(t: Table, s: set<Id>): (h: int)
    requires s != {} && s <= t.Keys
    ensures IsMaxHeight(t, s, h)
  {
    MaxHeightExists(t, s);
    var h :| IsMaxHeight(t, s, h);
    h
  }

  // ---------- the recurrence ----------

  /** The checks made before any block is processed that the recurrence relies on. */
  ghost predicate Rooted(b: Blocks) {
    && GENESIS in b && b[GENESIS] == Block([], 0)
    && Closed(Links(b))
    && forall n :: n in b && n != GENESIS ==> b[n].parents != [] && b[n].work >= 1
  }

  /** `n` is a block whose past has no cycle. */
  ghost predicate Grounded(b: Blocks, n: Id) {
    Rooted(b) && n in b && AcyclicFrom(Links(b), n)
  }

  lemma ClosedParent(b: Blocks, n: Id, p: Id)
    requires Closed(Links(b)) && n in b && p in b[n].parents
    ensures p in b
  {
    assert p in Links(b)[n];
    assert p in Links(b);
  }

  ghost function ProperPast(b: Blocks, n: Id): set<Id> {
    Past(Links(b), n) - {n}
  }

  ghost function MergeSet(b: Blocks, n: Id, parent: Id): set<Id> {
    ProperPast(b, n) - Past(Links(b), parent)
  }

  lemma GroundedInherits(b: Blocks, n: Id, a: Id)
    requires Grounded(b, n) && a in Past(Links(b), n)
    ensures Grounded(b, a)
    ensures a != n ==> |Past(Links(b), a)| < |Past(Links(b), n)|
    ensures a != n ==> n !in Past(Links(b), a)
  {
    PastSelf(Links(b), n);
    PastInKeys(Links(b), n);
    AcyclicInherits(Links(b), n, a);
    if a != n {
      PastShrinks(Links(b), n, a);
    }
  }

  lemma ParentsInPast(b: Blocks, n: Id)
    requires Grounded(b, n)
    ensures Elems(b[n].parents) <= ProperPast(b, n)
    ensures ProperPast(b, n) <= b.Keys
    ensures n != GENESIS ==> Elems(b[n].parents) != {}
  {
    var g := Links(b);
    assert n != GENESIS ==> b[n].parents[0] in Elems(b[n].parents);
    PastSelf(g, n);
    PastInKeys(g, n);
    forall p | p in b[n].parents
      ensures p in ProperPast(b, n)
    {
      PastSelf(g, p);
    }
  }

  lemma MergePaintable(b: Blocks, n: Id, s: Id, t: Table)
    requires Grounded(b, n) && ProperPast(b, n) <= t.Keys
    ensures Paintable(Links(b), t, MergeSet(b, n, s))
  {
    ParentsInPast(b, n);
  }

  ghost function Marks(b: Blocks, k: int, n: Id, t: Table): seq<Mark>
    requires Grounded(b, n) && n != GENESIS && ProperPast(b, n) <= t.Keys
  {
    ParentsInPast(b, n);
    var s := Best(t, Elems(b[n].parents));
    MergePaintable(b, n, s, t);
    Paint(Links(b), k, t, MergeSet(b, n, s), t[s].bluePast)
  }

  lemma {:induction false} PaintIds(g: Graph, k: int, t: Table, rest: set<Id>, blue: set<Id>)
    requires Paintable(g, t, rest)
    ensures forall i :: 0 <= i < |Paint(g, k, t, rest, blue)| ==> Paint(g, k, t, rest, blue)[i].id in rest
    decreases |rest|
  {
    if rest != {} {
      var x := Next(g, t, rest);
      var ok := KCluster(g, k, blue + {x});
      PaintIds(g, k, t, rest - {x}, if ok then blue + {x} else blue);
    }
  }

  lemma {:induction false} BluesIn(c: seq<Mark>, s: set<Id>)
    requires forall i :: 0 <= i < |c| ==> c[i].id in s
    ensures forall x :: x in Blues(c) ==> x in s
    ensures forall x :: x in Reds(c) ==> x in s
  {
    if c != [] {
      BluesIn(c[1..], s);
    }
  }

  /** One step of the recurrence, given the table of the proper past. */
  ghost function Step(b: Blocks, k: int, n: Id, t: Table): Info
    requires Grounded(b, n) && ProperPast(b, n) <= t.Keys
  {
    if n == GENESIS then Info(None, 0, 0, 0, {GENESIS}, [], [])
    else
      ParentsInPast(b, n);
      var parents := Elems(b[n].parents);
      var s := Best(t, parents);
      MergePaintable(b, n, s, t);
      PaintIds(Links(b), k, t, MergeSet(b, n, s), t[s].bluePast);
      var c := Marks(b, k, n, t);
      BluesIn(c, MergeSet(b, n, s));
      Info(
        Some(s),
        t[s].score + 1 + |Blues(c)|,
        t[s].work + b[n].work + SeqWork(b, Blues(c)),
        MaxHeight(t, parents) + 1,
        t[s].bluePast + Elems(Blues(c)) + {n},
        Blues(c), Reds(c))
  }

  /** The colouring of `n`, by recursion on the size of its past. */
  ghost function Color(b: Blocks, k: int, n: Id): Info
    requires Grounded(b, n)
    decreases |Past(Links(b), n)|, 1
  {
    Step(b, k, n, TableOf(b, k, n))
  }

  /** The colourings of all proper ancestors of `n`. */
  ghost function TableOf(b: Blocks, k: int, n: Id): (t: Table)
    requires Grounded(b, n)
    ensures t.Keys == ProperPast(b, n)
    decreases |Past(Links(b), n)|, 0
  {
    map x | x in ProperPast(b, n) :: (GroundedInherits(b, n, x); Color(b, k, x))
  }
}
