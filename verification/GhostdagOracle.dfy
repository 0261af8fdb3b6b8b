/** The worklist that computes the GHOSTDAG recurrence, and its exact acceptance. */
module GhostdagOracle {
  import opened CompactTarget
  import opened Ids
  import Sums
  import opened Dag
  import opened Ghostdag
  import opened GhostdagTheorems

  const MAX_U64: int := 0x1_0000_0000_0000_0000 - 1
  const MAX_U256: int :=
    0x1_0000_0000_0000_0000_0000_0000_0000_0000 * 0x1_0000_0000_0000_0000_0000_0000_0000_0000 - 1
  const MAX_U512: int := (MAX_U256 + 1) * (MAX_U256 + 1) - 1

  datatype Error =
    | InvalidK | BadGenesis | InvalidNodeId | InvalidWork | MissingParents
    | DuplicateOrSelfParent | MissingAncestry | Cycle | Unanchored
    | RedundantFrontier | MergeCycle | Overflow

  /** The reported part of a block's colouring. */
  datatype Verdict = Verdict(chosen: Option<Id>, score: int, work: int, blues: seq<Id>, reds: seq<Id>)

  function Report(i: Info): Verdict {
    Verdict(i.chosen, i.score, i.work, i.blues, i.reds)
  }

  // ---------- acceptance ----------

  /** The checks on one entry of the block map. */
  ghost predicate WellFormed(b: Blocks, n: Id)
    requires n in b
  {
    && n != ""
    && (n != GENESIS ==> 1 <= b[n].work <= MAX_U256)
    && (n != GENESIS ==> b[n].parents != [])
    && Distinct(b[n].parents) && n !in b[n].parents
    && (forall p :: p in b[n].parents ==> p in b)
  }

  /** Immediate parents form an antichain. */
  ghost predicate FrontierOk(b: Blocks, n: Id)
    requires n in b
  {
    forall x, y :: x in b[n].parents && y in b[n].parents && x != y ==> x !in Past(Links(b), y)
  }

  ghost predicate Fits(i: Info) {
    i.score <= MAX_U64 && i.work <= MAX_U512
  }

  /** What the block map has to satisfy, apart from accumulator width. */
  ghost predicate Admissible(b: Blocks, k: int) {
    && k >= 0
    && GENESIS in b && b[GENESIS] == Block([], 0)
    && (forall n :: n in b ==> WellFormed(b, n))
    && Acyclic(Links(b))
    && (forall n :: n in b ==> FrontierOk(b, n))
  }

  /** Why each error is raised. The last two never are. */
  ghost predicate Explains(e: Error, b: Blocks, k: int) {
    match e
    case InvalidK => k < 0
    case BadGenesis => !(GENESIS in b && b[GENESIS] == Block([], 0))
    case InvalidNodeId => "" in b
    case InvalidWork => exists n :: n in b && n != GENESIS && !(1 <= b[n].work <= MAX_U256)
    case MissingParents => exists n :: n in b && n != GENESIS && b[n].parents == []
    case DuplicateOrSelfParent =>
      exists n :: n in b && (!Distinct(b[n].parents) || n in b[n].parents)
    case MissingAncestry => exists n, p :: n in b && p in b[n].parents && p !in b
    case Cycle => !Acyclic(Links(b))
    case RedundantFrontier => exists n :: n in b && !FrontierOk(b, n)
    case Overflow => |b| > MAX_U64 + 1
    case Unanchored => false
    case MergeCycle => false
  }

  lemma WellFormedRooted(b: Blocks)
    requires GENESIS in b && b[GENESIS] == Block([], 0)
    requires forall n :: n in b ==> WellFormed(b, n)
    ensures Rooted(b)
  {
  }

  /** No immediate parent of an admissible block is an ancestor of another one. */
  lemma AdmissibleFrontier(b: Blocks, k: int, n: Id, x: Id, y: Id)
    requires Admissible(b, k) && n in b && x in b[n].parents && y in b[n].parents && x != y
    ensures !Reaches(Links(b), x, y) && !Reaches(Links(b), y, x)
  {
    assert FrontierOk(b, n);
    hide Past;
    PastReaches(Links(b), x, y);
    PastReaches(Links(b), y, x);
  }

  /** The accumulators are 64 and 512 bits wide, a block's work 256. */
  lemma WidthsAre()
    ensures MAX_U64 == Pow2(64) - 1 && MAX_U256 == Pow2(256) - 1 && MAX_U512 == Pow2(512) - 1
  {
    assert Pow2(8) == 256;
    Pow2Add(8, 8);
    Pow2Add(16, 16);
    Pow2Add(32, 32);
    Pow2Add(64, 64);
    Pow2Add(128, 128);
    Pow2Add(256, 256);
    assert Pow2(16) == 0x1_0000 && Pow2(32) == 0x1_0000_0000 && Pow2(64) == 0x1_0000_0000_0000_0000;
    assert Pow2(128) == 0x1_0000_0000_0000_0000_0000_0000_0000_0000;
  }

  /** Every error but the overflow one contradicts admissibility. */
  lemma ExplainedNotAdmissible(e: Error, b: Blocks, k: int)
    requires Explains(e, b, k) && e != Overflow
    ensures !Admissible(b, k)
  {
    if e == InvalidNodeId {
      assert !WellFormed(b, "");
    }
  }

  /** At most 2^64 blocks cannot overflow the accumulators. */
  lemma SmallDagsFit(b: Blocks, k: int, n: Id)
    requires Grounded(b, n) && |b| <= MAX_U64 + 1
    requires forall x :: x in b ==> WellFormed(b, x)
    ensures Fits(Color(b, k, n))
  {
    hide Color;
    var s := Color(b, k, n).bluePast;
    ScoreAndWork(b, k, n);
    SubsetCard(s, b.Keys);
    assert |b.Keys| == |b|;
    Sums.SumBound(map x | x in b :: b[x].work, s, MAX_U256);
    assert |s| * MAX_U256 <= (MAX_U64 + 1) * MAX_U256;
  }

  // ---------- the program ----------

  method CheckBlocks(order: seq<Id>, b: Blocks, k: int) returns (e: Option<Error>)
    requires Elems(order) == b.Keys
    ensures e.None? ==> forall n :: n in b ==> WellFormed(b, n)
    ensures e.Some? ==> e.value != Overflow && Explains(e.value, b, k)
  {
    for i := 0 to |order|
      invariant forall j :: 0 <= j < i ==> order[j] in b && WellFormed(b, order[j])
    {
      var n := order[i];
      assert n in Elems(order);
      if n == "" { return Some(InvalidNodeId); }
      if n != GENESIS && !(1 <= b[n].work <= MAX_U256) { return Some(InvalidWork); }
      if n != GENESIS && b[n].parents == [] { return Some(MissingParents); }
      DistinctCard(b[n].parents);
      if |Elems(b[n].parents)| != |b[n].parents| || n in b[n].parents { return Some(DuplicateOrSelfParent); }
      if exists p :: p in b[n].parents && p !in b { return Some(MissingAncestry); }
    }
    forall n | n in b
      ensures WellFormed(b, n)
    {
      assert n in Elems(order);
    }
    return None;
  }

  /** `past` and `t` hold the right rows for the blocks they cover. */
  ghost predicate Computed(b: Blocks, k: int, past: map<Id, set<Id>>, t: Table) {
    && past.Keys == t.Keys <= b.Keys
    && ParentClosed(Links(b), t.Keys)
    && forall x :: x in t ==>
         && Grounded(b, x)
         && past[x] == Past(Links(b), x)
         && t[x] == Color(b, k, x)
  }

  lemma AnticoneGrows(g: Graph, y: Id, blue: set<Id>, x: Id)
    requires x !in blue
    ensures |Anticone(g, y, blue + {x})| == |Anticone(g, y, blue)| + (if Incomparable(g, y, x) then 1 else 0)
  {
    hide Incomparable;
    assert Anticone(g, y, blue + {x}) ==
           Anticone(g, y, blue) + (if Incomparable(g, y, x) then {x} else {});
  }

  lemma NotIncomparableToSelf(g: Graph, x: Id)
    ensures !Incomparable(g, x, x)
  {
    PastSelf(g, x);
  }

  /** The two counting tests decide whether the blue set stays a K-cluster. */
  lemma ClusterTest(g: Graph, k: int, blue: set<Id>, x: Id)
    requires x !in blue
    ensures KCluster(g, k, blue + {x}) <==>
            && |Anticone(g, x, blue)| <= k
            && forall y :: y in blue ==>
                 |Anticone(g, y, blue)| + (if Incomparable(g, y, x) then 1 else 0) <= k
  {
    hide Incomparable, Anticone;
    forall y | y in blue + {x}
      ensures |Anticone(g, y, blue + {x})| == |Anticone(g, y, blue)| + (if Incomparable(g, y, x) then 1 else 0)
    {
      AnticoneGrows(g, y, blue, x);
    }
    assert !Incomparable(g, x, x) by { NotIncomparableToSelf(g, x); }
  }

  /** `sum(incomparable(x, y) for y in blue)`. */
  function CountIncomparable(past: map<Id, set<Id>>, x: Id, blue: set<Id>): int
    requires x in past && blue <= past.Keys
  {
    |set y | y in blue && x !in past[y] && y !in past[x]|
  }

  predicate StaysCluster(past: map<Id, set<Id>>, k: int, blue: set<Id>, x: Id)
    requires x in past && blue <= past.Keys
  {
    && CountIncomparable(past, x, blue) <= k
    && forall y :: y in blue ==>
         CountIncomparable(past, y, blue) + (if y !in past[x] && x !in past[y] then 1 else 0) <= k
  }

  lemma StaysClusterExact(b: Blocks, k: int, past: map<Id, set<Id>>, t: Table, blue: set<Id>, x: Id)
    requires Computed(b, k, past, t) && x in past && blue <= past.Keys && x !in blue
    ensures StaysCluster(past, k, blue, x) == KCluster(Links(b), k, blue + {x})
  {
    ClusterTest(Links(b), k, blue, x);
    forall y | y in blue + {x}
      ensures CountIncomparable(past, y, blue) == |Anticone(Links(b), y, blue)|
    {
      assert (set z | z in blue && y !in past[z] && z !in past[y]) == Anticone(Links(b), y, blue);
    }
  }

  lemma PaintUnfold(g: Graph, k: int, t: Table, rest: set<Id>, blue: set<Id>, x: Id)
    requires rest != {} && Paintable(g, t, rest) && IsBest(t, Ready(g, rest), x)
    ensures x in rest && Paintable(g, t, rest - {x})
    ensures var ok := KCluster(g, k, blue + {x});
            var c := Paint(g, k, t, rest, blue);
            var d := Paint(g, k, t, rest - {x}, if ok then blue + {x} else blue);
            && (ok ==> Blues(c) == [x] + Blues(d) && Reds(c) == Reds(d))
            && (!ok ==> Blues(c) == Blues(d) && Reds(c) == [x] + Reds(d))
  {
    BestUnique(t, Ready(g, rest), x, Next(g, t, rest));
    var ok := KCluster(g, k, blue + {x});
    ColoursCons(Mark(x, ok), Paint(g, k, t, rest - {x}, if ok then blue + {x} else blue));
  }

  lemma ComputedPaintable(b: Blocks, k: int, past: map<Id, set<Id>>, t: Table, s: set<Id>)
    requires Computed(b, k, past, t) && s <= t.Keys
    ensures t.Keys <= b.Keys && past.Keys == t.Keys
    ensures Paintable(Links(b), t, s)
  {
    hide Color;
    forall x | x in s
      ensures LoopFree(Links(b), x)
    {
      PastSelf(Links(b), x);
    }
  }

  lemma ElemsNil<T>()
    ensures Elems<T>([]) == {}
  {
  }

  lemma ColoursNil()
    ensures Blues([]) == [] && Reds([]) == []
  {
  }

  lemma AppendShift<T>(a: seq<T>, x: T, d: seq<T>)
    ensures (a + [x]) + d == a + ([x] + d)
  {
  }

  /** The inner loop: colours a merge set in place. */
  method ColorMerge(b: Blocks, k: int, past: map<Id, set<Id>>, t: Table, merge: set<Id>, blue: set<Id>)
    returns (r: Result<(seq<Id>, seq<Id>, set<Id>), Error>)
    requires Computed(b, k, past, t)
    requires merge <= t.Keys && blue <= t.Keys && merge !! blue
    ensures Paintable(Links(b), t, merge)
    ensures var c := Paint(Links(b), k, t, merge, blue);
            r == Ok((Blues(c), Reds(c), blue + Elems(Blues(c))))
  {
    hide Color, Paint, Blues, Reds, KCluster, StaysCluster, Paintable, Computed, IsBest, Past, Elems;
    ghost var g := Links(b);
    ComputedPaintable(b, k, past, t, merge);
    ghost var c := Paint(g, k, t, merge, blue);
    var rest, blueSet := merge, blue;
    var accepted, rejected := [], [];
    assert Elems<Id>([]) == {} by { ElemsNil<Id>(); }
    while rest != {}
      invariant rest <= merge && rest !! blueSet && blueSet <= t.Keys
      invariant Paintable(g, t, rest)
      invariant blueSet == blue + Elems(accepted)
      invariant accepted + Blues(Paint(g, k, t, rest, blueSet)) == Blues(c)
      invariant rejected + Reds(Paint(g, k, t, rest, blueSet)) == Reds(c)
      decreases |rest|
    {
      ReadyExists(g, t, rest);
      var ready := set x | x in rest && Elems(b[x].parents) * rest == {};
      assert ready == Ready(g, rest);
      if ready == {} {
        assert false;
        return Err(MergeCycle);
      }
      var x := FindBest(t, ready);
      StaysClusterExact(b, k, past, t, blueSet, x);
      PaintUnfold(g, k, t, rest, blueSet, x);
      if StaysCluster(past, k, blueSet, x) {
        ElemsSnoc(accepted, x);
        AppendShift(accepted, x, Blues(Paint(g, k, t, rest - {x}, blueSet + {x})));
        accepted := accepted + [x];
        blueSet := blueSet + {x};
      } else {
        AppendShift(rejected, x, Reds(Paint(g, k, t, rest - {x}, blueSet)));
        rejected := rejected + [x];
      }
      rest := rest - {x};
    }
    PaintDone(g, k, t, blueSet);
    assert accepted == Blues(c) && rejected == Reds(c) by { ColoursNil(); }
    r := Ok((accepted, rejected, blueSet));
  }

  method HighestParent(t: Table, parents: seq<Id>) returns (h: int)
    requires parents != [] && Elems(parents) <= t.Keys
    ensures IsMaxHeight(t, Elems(parents), h)
  {
    assert parents[0] in Elems(parents);
    h := t[parents[0]].height;
    for i := 1 to |parents|
      invariant exists x :: x in Elems(parents) && t[x].height == h
      invariant forall j :: 0 <= j < i ==> parents[j] in t && t[parents[j]].height <= h
    {
      assert parents[i] in Elems(parents);
      if t[parents[i]].height > h {
        h := t[parents[i]].height;
      }
    }
  }

  /** A block whose parents are all processed is grounded. */
  lemma NextGrounded(b: Blocks, k: int, past: map<Id, set<Id>>, t: Table, n: Id)
    requires Rooted(b) && Computed(b, k, past, t)
    requires n in b && n !in t && Elems(b[n].parents) <= t.Keys
    ensures Grounded(b, n)
    ensures ProperPast(b, n) <= t.Keys
    ensures Past(Links(b), n) == {n} + (set p, y | p in b[n].parents && y in past[p] :: y)
    ensures n !in (set p, y | p in b[n].parents && y in past[p] :: y)
  {
    hide Color;
    var g := Links(b);
    PastUnfold(g, n);
    forall p | p in b[n].parents
      ensures p in t && Past(g, p) == past[p] && Past(g, p) <= t.Keys
      ensures forall x :: x in Past(g, p) ==> LoopFree(g, x)
    {
      assert p in Elems(b[n].parents);
      PastLeast(g, p, t.Keys);
    }
    assert PastOfParents(g, g[n]) == (set p, y | p in b[n].parents && y in past[p] :: y);
  }

  /** A table covering the proper past colours `n` like the recurrence does. */
  lemma StepFromTable(b: Blocks, k: int, past: map<Id, set<Id>>, t: Table, n: Id, s: Id, h: int)
    requires Computed(b, k, past, t) && Grounded(b, n) && n != GENESIS
    requires ProperPast(b, n) <= t.Keys && Elems(b[n].parents) <= t.Keys
    requires IsBest(t, Elems(b[n].parents), s)
    requires IsMaxHeight(t, Elems(b[n].parents), h)
    ensures s == Selected(b, k, n)
    ensures Paintable(Links(b), t, MergeSet(b, n, s))
    ensures Coloured(b, k, n) == Paint(Links(b), k, t, MergeSet(b, n, s), t[s].bluePast)
    ensures Color(b, k, n).height == h + 1
    ensures t[s].bluePast <= Past(Links(b), s)
  {
    hide Color, Paint;
    var g, t' := Links(b), TableOf(b, k, n);
    var ps := Elems(b[n].parents);
    assert IsBest(t', ps, s) by {
      assert ps <= t'.Keys by { ParentsInPast(b, n); }
    }
    BestUnique(t', ps, s, Selected(b, k, n));
    ColorUnfold(b, k, n);
    MergePaintable(b, n, s, t);
    BluePastInPast(b, k, s);
    PaintAgrees(g, g, k, t', t, MergeSet(b, n, s), t[s].bluePast);
  }

  /** The row computed from such a table is the recurrence's row. */
  lemma RowFromTable(b: Blocks, k: int, past: map<Id, set<Id>>, t: Table, n: Id, s: Id, h: int)
    requires Computed(b, k, past, t) && Grounded(b, n) && n != GENESIS
    requires ProperPast(b, n) <= t.Keys && Elems(b[n].parents) <= t.Keys
    requires IsBest(t, Elems(b[n].parents), s)
    requires IsMaxHeight(t, Elems(b[n].parents), h)
    ensures s in t && Paintable(Links(b), t, MergeSet(b, n, s))
    ensures t[s].bluePast <= past[s]
    ensures var c := Paint(Links(b), k, t, MergeSet(b, n, s), t[s].bluePast);
            && (forall x :: x in Blues(c) ==> x in b)
            && Color(b, k, n) == Info(
                 Some(s),
                 t[s].score + 1 + |Blues(c)|,
                 t[s].work + b[n].work + SeqWork(b, Blues(c)),
                 h + 1,
                 t[s].bluePast + Elems(Blues(c)) + {n},
                 Blues(c), Reds(c))
  {
    hide Color, Paint, Marks, Blues, Reds;
    StepFromTable(b, k, past, t, n, s, h);
    ColorUnfold(b, k, n);
  }

  /** Every grounded block descends from genesis. */
  lemma {:induction false} Anchored(b: Blocks, n: Id)
    requires Grounded(b, n)
    ensures GENESIS in Past(Links(b), n)
    decreases |Past(Links(b), n)|
  {
    PastSelf(Links(b), n);
    if n != GENESIS {
      var p := b[n].parents[0];
      ParentsInPast(b, n);
      assert p in Elems(b[n].parents);
      GroundedInherits(b, n, p);
      Anchored(b, p);
      PastTrans(Links(b), n, p);
    }
  }

  /** Selects the parent, colours the merge set and accumulates score and work. */
  method ColorBlock(
      b: Blocks, k: int, past: map<Id, set<Id>>, t: Table, n: Id, parentsPast: set<Id>)
    returns (info: Info)
    requires Computed(b, k, past, t) && Grounded(b, n) && n != GENESIS
    requires Elems(b[n].parents) <= t.Keys && parentsPast <= t.Keys
    requires parentsPast == ProperPast(b, n)
    ensures info == Color(b, k, n)
  {
    hide Color, Paint, IsBest, IsMaxHeight, SeqWork, Blues, Reds, Paintable;
    var parents := b[n].parents;
    assert parents[0] in Elems(parents);
    var s := FindBest(t, Elems(parents));
    var h := HighestParent(t, parents);
    RowFromTable(b, k, past, t, n, s, h);
    var merge := parentsPast - past[s];
    assert merge == MergeSet(b, n, s);
    assert t[s].bluePast <= t.Keys by { PastLeast(Links(b), s, t.Keys); }
    var colours := ColorMerge(b, k, past, t, merge, t[s].bluePast);
    var (accepted, rejected, blueSet) := colours.value;
    info := Info(
      Some(s), t[s].score + 1 + |accepted|, t[s].work + b[n].work + SeqWork(b, accepted),
      h + 1, blueSet + {n}, accepted, rejected);
  }

  /** The loop body for one ready block other than genesis. */
  method ProcessBlock(b: Blocks, k: int, past: map<Id, set<Id>>, t: Table, n: Id)
    returns (r: Result<Info, Error>)
    requires Rooted(b) && Computed(b, k, past, t) && n != GENESIS
    requires n in b && n !in t && Elems(b[n].parents) <= t.Keys
    ensures Grounded(b, n)
    ensures r.Ok? ==> r.value == Color(b, k, n) && FrontierOk(b, n) && Fits(Color(b, k, n))
    ensures r.Err? ==>
              || (r.error == RedundantFrontier && !FrontierOk(b, n))
              || (r.error == Overflow && !Fits(Color(b, k, n)))
  {
    hide Color, Grounded, Past;
    var parents := b[n].parents;
    NextGrounded(b, k, past, t, n);
    assert forall p :: p in parents ==> p in Elems(parents);
    var parentsPast := set p, y | p in parents && y in past[p] :: y;
    assert parentsPast == ProperPast(b, n);
    Anchored(b, n);
    if GENESIS !in {n} + parentsPast {
      assert false;
      return Err(Unanchored);
    }
    if exists x, y :: x in parents && y in parents && x != y && x in past[y] {
      return Err(RedundantFrontier);
    }
    var info := ColorBlock(b, k, past, t, n, parentsPast);
    if info.score > MAX_U64 || info.work > MAX_U512 {
      return Err(Overflow);
    }
    return Ok(info);
  }

  /** Worklist progress: everything processed so far is right and within bounds. */
  ghost predicate Progress(b: Blocks, k: int, pending: set<Id>, past: map<Id, set<Id>>, t: Table) {
    && t.Keys == b.Keys - pending
    && Computed(b, k, past, t)
    && forall x :: x in t ==> FrontierOk(b, x) && Fits(Color(b, k, x))
  }

  lemma ProgressStep(
      b: Blocks, k: int, pending: set<Id>, past: map<Id, set<Id>>, t: Table, n: Id, info: Info)
    requires Rooted(b) && Progress(b, k, pending, past, t) && n in pending && n in b
    requires Elems(b[n].parents) <= t.Keys
    requires Grounded(b, n) && info == Color(b, k, n) && FrontierOk(b, n) && Fits(info)
    ensures Progress(b, k, pending - {n}, past[n := Past(Links(b), n)], t[n := info])
  {
    hide Color, Past;
    var t' := t[n := info];
    forall x, p | x in t' && x in Links(b) && p in Links(b)[x]
      ensures p in t'
    {
      assert p in Elems(b[x].parents);
    }
  }

  ghost predicate AllParentsIn(b: Blocks, n: Id, s: set<Id>)
    requires n in b
  {
    forall p :: p in b[n].parents ==> p in s
  }

  lemma SourceReady(b: Blocks, pending: set<Id>, m: Id)
    requires m in b && Closed(Links(b)) && forall p :: p in b[m].parents ==> p !in pending
    ensures AllParentsIn(b, m, b.Keys - pending)
  {
    forall p | p in b[m].parents
      ensures p in b
    {
      ClosedParent(b, m, p);
    }
  }

  /** Pending blocks none of which is ready contain a cycle. */
  lemma StuckMeansCycle(b: Blocks, pending: set<Id>)
    requires pending != {} && pending <= b.Keys && Closed(Links(b))
    requires forall n :: n in pending ==> !AllParentsIn(b, n, b.Keys - pending)
    ensures !Acyclic(Links(b))
  {
    if Acyclic(Links(b)) {
      var m := SourceExists(Links(b), pending);
      SourceReady(b, pending, m);
      assert false;
    }
  }

  lemma RowErrorExplained(b: Blocks, k: int, n: Id, e: Error)
    requires Grounded(b, n) && forall x :: x in b ==> WellFormed(b, x)
    requires (e == RedundantFrontier && !FrontierOk(b, n)) || (e == Overflow && !Fits(Color(b, k, n)))
    ensures Explains(e, b, k)
  {
    hide Color, Past;
    if e == Overflow && |b| <= MAX_U64 + 1 {
      SmallDagsFit(b, k, n);
    }
  }

  lemma CycleExplained(b: Blocks, k: int)
    requires !Acyclic(Links(b))
    ensures Explains(Cycle, b, k)
  {
  }

  lemma AllProcessed(b: Blocks, k: int, past: map<Id, set<Id>>, t: Table)
    requires Progress(b, k, {}, past, t)
    ensures Acyclic(Links(b))
    ensures t.Keys == b.Keys
    ensures forall n :: n in b ==> Grounded(b, n) && t[n] == Color(b, k, n) && FrontierOk(b, n) && Fits(t[n])
  {
    hide Color;
    forall n | n in b
      ensures LoopFree(Links(b), n)
    {
      assert n in t;
      PastSelf(Links(b), n);
    }
  }

  /** The outer loop: processes the smallest ready label until none is pending. */
  method Drain(b: Blocks, k: int) returns (r: Result<Table, Error>)
    requires Rooted(b) && forall n :: n in b ==> WellFormed(b, n)
    ensures r.Ok? ==>
              && Acyclic(Links(b))
              && r.value.Keys == b.Keys
              && forall n :: n in b ==>
                   && Grounded(b, n) && FrontierOk(b, n)
                   && Fits(Color(b, k, n)) && r.value[n] == Color(b, k, n)
    ensures r.Err? ==> Explains(r.error, b, k)
    ensures r.Err? && r.error == Overflow ==>
              exists n :: n in b && Grounded(b, n) && !Fits(Color(b, k, n))
  {
    hide Color, Past, Grounded, Explains, WellFormed, FrontierOk, Fits;
    var pending := b.Keys;
    var past: map<Id, set<Id>> := map[];
    var t: Table := map[];
    while pending != {}
      invariant pending <= b.Keys
      invariant Progress(b, k, pending, past, t)
      decreases |pending|
    {
      var ready := set n | n in pending && forall p :: p in b[n].parents ==> p in past;
      if ready == {} {
        assert forall n :: n in pending ==> n !in ready && !AllParentsIn(b, n, past.Keys);
        StuckMeansCycle(b, pending);
        CycleExplained(b, k);
        return Err(Cycle);
      }
      var n := LeastId(ready);
      assert Elems(b[n].parents) <= t.Keys;
      var parentsPast := set p, y | p in b[n].parents && y in past[p] :: y;
      NextGrounded(b, k, past, t, n);
      var info;
      if n == GENESIS {
        info := Info(None, 0, 0, 0, {GENESIS}, [], []);
        GenesisRow(b, k);
      } else {
        var row := ProcessBlock(b, k, past, t, n);
        if row.Err? {
          RowErrorExplained(b, k, n, row.error);
          return Err(row.error);
        }
        info := row.value;
      }
      ProgressStep(b, k, pending, past, t, n, info);
      past := past[n := {n} + parentsPast];
      t := t[n := info];
      pending := pending - {n};
    }
    AllProcessed(b, k, past, t);
    return Ok(t);
  }

  lemma GenesisRow(b: Blocks, k: int)
    requires Grounded(b, GENESIS)
    ensures Color(b, k, GENESIS) == Info(None, 0, 0, 0, {GENESIS}, [], [])
    ensures FrontierOk(b, GENESIS) && Fits(Color(b, k, GENESIS))
  {
    ColorGenesis(b, k);
  }

  /** Every row of an accepted map fits its accumulators. */
  ghost predicate AllFit(b: Blocks, k: int) {
    forall n :: n in b ==> Grounded(b, n) && Fits(Color(b, k, n))
  }

  /** What a successful run returns. */
  ghost predicate Returns(b: Blocks, k: int, v: map<Id, Verdict>) {
    && v.Keys == b.Keys
    && forall n :: n in b ==> Grounded(b, n) && v[n] == Report(Color(b, k, n))
  }

  /** The whole oracle, over the dictionary `b` iterated in `order`. */
  method SelectAndColor(order: seq<Id>, b: Blocks, k: int) returns (r: Result<map<Id, Verdict>, Error>)
    requires Elems(order) == b.Keys
    ensures r.Ok? <==> Admissible(b, k) && AllFit(b, k)
    ensures |b| <= MAX_U64 + 1 ==> (r.Ok? <==> Admissible(b, k))
    ensures r.Ok? ==> Returns(b, k, r.value)
    ensures r.Err? ==> Explains(r.error, b, k)
  {
    hide Color, Past, Grounded, WellFormed, FrontierOk, Fits;
    if k < 0 {
      return Err(InvalidK);
    }
    if GENESIS !in b || b[GENESIS] != Block([], 0) {
      return Err(BadGenesis);
    }
    var bad := CheckBlocks(order, b, k);
    if bad.Some? {
      ExplainedNotAdmissible(bad.value, b, k);
      return Err(bad.value);
    }
    WellFormedRooted(b);
    var rows := Drain(b, k);
    if rows.Err? {
      if rows.error != Overflow {
        ExplainedNotAdmissible(rows.error, b, k);
      }
      return Err(rows.error);
    }
    return Ok(map n | n in b :: Report(rows.value[n]));
  }

  /**
   * Two successful runs agree on every shared block when one map extends the
   * other, whatever order blocks arrive in and parents are listed in.
   */
  lemma RunsAgree(b: Blocks, b': Blocks, k: int, v: map<Id, Verdict>, v': map<Id, Verdict>, n: Id)
    requires Extends(b, b')
    requires Returns(b, k, v) && Returns(b', k, v') && n in b
    ensures v[n] == v'[n]
  {
    hide Color, Past;
    assert Grounded(b', n);
    ColorExtends(b, b', k, n);
  }
}
