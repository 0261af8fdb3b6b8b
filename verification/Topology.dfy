/** The symbolic topology oracle: closure by depth-first search, pasts and merge sets. */
module Topology {
  import opened Ids
  import opened Sums
  import opened Dag

  const MAX_HEADERS := 128
  const MAX_EDGES := 2048
  const MAX_ROOTS := 64

  datatype GraphError =
    | BadGenesis | BadRoots | DuplicateRoots | InvalidLabel | Cycle | MissingAncestor
    | InvalidParentList | MissingAncestry | DuplicateParents | TooManyHeaders
    | TooManyEdges | UnreachableGenesis | OutsideClosure | NotARoot

  /** The ancestors of all roots. */
  ghost function Closure(g: Graph, roots: seq<Id>): set<Id> {
    PastOfParents(g, roots)
  }

  ghost function Degrees(g: Graph): map<Id, int> {
    map n | n in g :: |g[n]|
  }

  /** A present node with a well-formed parent list. */
  ghost predicate NodeOk(g: Graph, n: Id) {
    && n != "" && n in g
    && (forall p :: p in g[n] ==> p != "")
    && (n != GENESIS ==> g[n] != [])
    && Distinct(g[n])
  }

  ghost predicate RootsOk(g: Graph, roots: seq<Id>) {
    && GENESIS in g && g[GENESIS] == []
    && 0 < |roots| <= MAX_ROOTS
    && Distinct(roots)
  }

  /** The closure is complete, well formed, acyclic and within both budgets. */
  ghost predicate ClosureOk(g: Graph, c: set<Id>) {
    && (forall n :: n in c ==> NodeOk(g, n) && LoopFree(g, n))
    && |c| <= MAX_HEADERS
    && SetSum(Degrees(g), c) <= MAX_EDGES
  }

  ghost predicate Acceptable(g: Graph, roots: seq<Id>) {
    RootsOk(g, roots) && ClosureOk(g, Closure(g, roots))
  }

  /** What acceptance promises, with the limits written out. */
  lemma AcceptableMeans(g: Graph, roots: seq<Id>, n: Id)
    requires Acceptable(g, roots) && n in Closure(g, roots)
    ensures 0 < |roots| <= 64 && |Closure(g, roots)| <= 128 && SetSum(Degrees(g), Closure(g, roots)) <= 2048
    ensures n in g && Distinct(g[n]) && "" !in g[n] && (g[n] == [] <==> n == GENESIS)
    ensures forall p :: p in g[n] ==> !Reaches(g, p, n)
  {
    hide Past, Closure, SetSum;
    assert NodeOk(g, n) && LoopFree(g, n);
    forall p | p in g[n]
      ensures !Reaches(g, p, n)
    {
      PastReaches(g, p, n);
    }
  }

  /** Why the search rejects a closure. */
  ghost predicate Explains(e: GraphError, g: Graph, c: set<Id>) {
    match e
    case InvalidLabel => "" in c
    case Cycle => exists n :: n in c && !LoopFree(g, n)
    case MissingAncestor => exists n :: n in c && n !in g
    case InvalidParentList => exists n :: n in c && n in g && "" in g[n]
    case MissingAncestry => exists n :: n in c && n in g && n != GENESIS && g[n] == []
    case DuplicateParents => exists n :: n in c && n in g && !Distinct(g[n])
    case TooManyHeaders => |c| > MAX_HEADERS
    case TooManyEdges => c <= g.Keys ==> SetSum(Degrees(g), c) > MAX_EDGES
    case _ => false
  }

  lemma ExplainedNotOk(e: GraphError, g: Graph, c: set<Id>)
    requires Explains(e, g, c)
    ensures !ClosureOk(g, c)
  {
    if e == InvalidLabel {
      assert !NodeOk(g, "");
    }
  }

  /** `v` is a proper descendant of `n`. */
  ghost predicate Above(g: Graph, v: Id, n: Id) {
    v in g && exists p :: p in g[v] && n in Past(g, p)
  }

  lemma AboveSelf(g: Graph, n: Id)
    requires Above(g, n, n)
    ensures !LoopFree(g, n)
  {
  }

  lemma AboveParent(g: Graph, v: Id, n: Id, p: Id)
    requires n in g && p in g[n] && (v == n || Above(g, v, n))
    ensures Above(g, v, p)
  {
    PastSelf(g, p);
    if v != n {
      var q :| q in g[v] && n in Past(g, q);
      PastSelf(g, q);
      assert p in Past(g, q);
    }
  }

  /** Finished nodes form a valid closed graph; open nodes are checked and counted. */
  ghost predicate SearchOk(g: Graph, visited: set<Id>, visiting: set<Id>, edges: int) {
    && visited !! visiting
    && ParentClosed(g, visited)
    && (forall n :: n in visited ==> NodeOk(g, n) && LoopFree(g, n))
    && (forall n :: n in visiting ==> NodeOk(g, n))
    && |visited + visiting| <= MAX_HEADERS
    && visited + visiting <= g.Keys
    && edges == SetSum(Degrees(g), visited + visiting) <= MAX_EDGES
  }

  lemma StillAbove(g: Graph, visiting: set<Id>, n: Id)
    requires n in g && forall v :: v in visiting ==> Above(g, v, n)
    ensures forall v, p :: v in visiting + {n} && p in g[n] ==> Above(g, v, p)
  {
    forall v, p | v in visiting + {n} && p in g[n]
      ensures Above(g, v, p)
    {
      AboveParent(g, v, n, p);
    }
  }

  lemma VisitedPast(g: Graph, visited: set<Id>, visiting: set<Id>, edges: int, n: Id)
    requires SearchOk(g, visited, visiting, edges) && n in visited
    ensures Past(g, n) <= visited
  {
    PastLeast(g, n, visited);
  }

  lemma HeaderCount(g: Graph, visited: set<Id>, visiting: set<Id>, edges: int, n: Id, c: set<Id>)
    requires SearchOk(g, visited, visiting, edges)
    requires n !in visited && n !in visiting && visited + visiting + {n} <= c
    ensures |visited| + |visiting| == |visited + visiting|
    ensures |visited| + |visiting| >= MAX_HEADERS ==> Explains(TooManyHeaders, g, c)
  {
    SubsetCard(visited + visiting + {n}, c);
  }

  lemma EdgeCount(g: Graph, visited: set<Id>, visiting: set<Id>, edges: int, n: Id, c: set<Id>)
    requires SearchOk(g, visited, visiting, edges) && NodeOk(g, n)
    requires n !in visited && n !in visiting && visited + visiting + {n} <= c
    ensures edges + |g[n]| == SetSum(Degrees(g), visited + visiting + {n})
    ensures edges + |g[n]| > MAX_EDGES ==> Explains(TooManyEdges, g, c)
  {
    SumAdd(Degrees(g), visited + visiting, n);
    if c <= g.Keys {
      SumSubset(Degrees(g), visited + visiting + {n}, c);
    }
  }

  lemma EnterNode(g: Graph, visited: set<Id>, visiting: set<Id>, edges: int, n: Id)
    requires SearchOk(g, visited, visiting, edges) && NodeOk(g, n)
    requires n !in visited && n !in visiting && |visited + visiting| < MAX_HEADERS
    requires edges + |g[n]| <= MAX_EDGES
    ensures SearchOk(g, visited, visiting + {n}, edges + |g[n]|)
  {
    SumAdd(Degrees(g), visited + visiting, n);
    assert visited + (visiting + {n}) == visited + visiting + {n};
  }

  lemma LeaveNode(g: Graph, visited: set<Id>, visiting: set<Id>, edges: int, n: Id)
    requires SearchOk(g, visited, visiting, edges) && n in visiting && n in g
    requires PastOfParents(g, g[n]) <= visited
    ensures SearchOk(g, visited + {n}, visiting - {n}, edges)
  {
    forall p | p in g[n]
      ensures p in visited && Past(g, p) <= visited
    {
      PastSelf(g, p);
    }
    assert LoopFree(g, n);
    assert (visited + {n}) + (visiting - {n}) == visited + visiting;
  }

  /** The mutable state of one depth-first search. */
  class ClosureSearch {
    const parents: Graph
    var visited: set<Id>
    var visiting: set<Id>
    var edges: int

    constructor (g: Graph)
      ensures parents == g && visited == {} && visiting == {} && edges == 0
    {
      parents := g;
      visited := {};
      visiting := {};
      edges := 0;
    }

    ghost predicate Valid()
      reads this
    {
      SearchOk(parents, visited, visiting, edges)
    }

    /** The nested `visit`. `c` is the closure being searched. */
    method Visit(node: Id, ghost c: set<Id>) returns (e: Option<GraphError>)
      requires Valid()
      requires ParentClosed(parents, c) && visited + visiting + {node} <= c
      requires forall v :: v in visiting ==> Above(parents, v, node)
      modifies this
      ensures e.None? ==>
                && Valid()
                && visiting == old(visiting)
                && visited == old(visited) + Past(parents, node)
      ensures e.Some? ==> Explains(e.value, parents, c)
      decreases parents.Keys - visiting, 1
    {
      hide Past, SearchOk, LoopFree, Above, PastOfParents, ParentClosed, SetSum, Distinct;
      if node == "" { return Some(InvalidLabel); }
      if node in visiting {
        AboveSelf(parents, node);
        return Some(Cycle);
      }
      if node in visited {
        VisitedPast(parents, visited, visiting, edges, node);
        return None;
      }
      if node !in parents { return Some(MissingAncestor); }
      var links := parents[node];
      if "" in links { return Some(InvalidParentList); }
      if node != GENESIS && links == [] { return Some(MissingAncestry); }
      DistinctCard(links);
      if |Elems(links)| != |links| { return Some(DuplicateParents); }
      HeaderCount(parents, visited, visiting, edges, node, c);
      if |visited| + |visiting| >= MAX_HEADERS { return Some(TooManyHeaders); }
      EdgeCount(parents, visited, visiting, edges, node, c);
      e := Descend(node, c);
    }

    /** Opens a checked node, visits its parents and closes it. */
    method Descend(node: Id, ghost c: set<Id>) returns (e: Option<GraphError>)
      requires Valid() && NodeOk(parents, node) && node !in visited && node !in visiting
      requires |visited + visiting| < MAX_HEADERS
      requires edges + |parents[node]| > MAX_EDGES ==> Explains(TooManyEdges, parents, c)
      requires ParentClosed(parents, c) && visited + visiting + {node} <= c
      requires forall v :: v in visiting ==> Above(parents, v, node)
      modifies this
      ensures e.None? ==>
                && Valid()
                && visiting == old(visiting)
                && visited == old(visited) + Past(parents, node)
      ensures e.Some? ==> Explains(e.value, parents, c)
      decreases parents.Keys - visiting, 0
    {
      hide Past, SearchOk, LoopFree, Above, PastOfParents, SetSum, Distinct, Explains;
      var links := parents[node];
      if edges + |links| <= MAX_EDGES {
        EnterNode(parents, visited, visiting, edges, node);
        StillAbove(parents, visiting, node);
      }
      visiting := visiting + {node};
      edges := edges + |links|;
      if edges > MAX_EDGES { return Some(TooManyEdges); }
      e := VisitOpen(node, c);
    }

    /** Visits the parents of an opened node and closes it. */
    method VisitOpen(node: Id, ghost c: set<Id>) returns (e: Option<GraphError>)
      requires Valid() && NodeOk(parents, node) && node in visiting && node !in visited
      requires ParentClosed(parents, c) && visited + visiting <= c
      requires forall v, p :: v in visiting && p in parents[node] ==> Above(parents, v, p)
      modifies this
      ensures e.None? ==>
                && Valid()
                && visiting == old(visiting) - {node}
                && visited == old(visited) + Past(parents, node)
      ensures e.Some? ==> Explains(e.value, parents, c)
      decreases parents.Keys - visiting, 3
    {
      hide Past, SearchOk, LoopFree, Above, PastOfParents, SetSum, Distinct, Explains;
      e := VisitAll(parents[node], c);
      if e.Some? { return; }
      PastUnfold(parents, node);
      LeaveNode(parents, visited, visiting, edges, node);
      visiting := visiting - {node};
      visited := visited + {node};
    }

    /** Visits every label of a list in order. */
    method VisitAll(list: seq<Id>, ghost c: set<Id>) returns (e: Option<GraphError>)
      requires Valid()
      requires ParentClosed(parents, c) && visited + visiting + Elems(list) <= c
      requires forall v, p :: v in visiting && p in list ==> Above(parents, v, p)
      modifies this
      ensures e.None? ==>
                && Valid()
                && visiting == old(visiting)
                && visited == old(visited) + PastOfParents(parents, list)
      ensures e.Some? ==> Explains(e.value, parents, c)
      decreases parents.Keys - visiting, 2
    {
      hide Past, SearchOk, Above, PastOfParents, Explains;
      NoPasts(parents);
      for i := 0 to |list|
        invariant Valid() && visiting == old(visiting)
        invariant visited == old(visited) + PastOfParents(parents, list[..i])
        invariant visited <= c
      {
        assert list[i] in Elems(list);
        assert list[..i + 1] == list[..i] + [list[i]];
        PastOfSnoc(parents, list[..i], list[i]);
        PastLeast(parents, list[i], c);
        e := Visit(list[i], c);
        if e.Some? { return; }
      }
      assert list[..|list|] == list;
      e := None;
    }
  }

  lemma NoPasts(g: Graph)
    ensures PastOfParents(g, []) == {}
  {
  }

  lemma PastOfSnoc(g: Graph, q: seq<Id>, p: Id)
    ensures PastOfParents(g, q + [p]) == PastOfParents(g, q) + Past(g, p)
  {
  }

  lemma ClosureClosed(g: Graph, roots: seq<Id>)
    ensures ParentClosed(g, Closure(g, roots))
    ensures Elems(roots) <= Closure(g, roots)
  {
    forall r | r in roots
      ensures ParentClosed(g, Past(g, r)) && r in Past(g, r)
    {
      PastSelf(g, r);
    }
    forall x, p | x in Closure(g, roots) && x in g && p in g[x]
      ensures p in Closure(g, roots)
    {
      var r :| r in roots && x in Past(g, r);
      assert p in Past(g, r);
    }
  }

  lemma HasMember<T>(s: seq<T>)
    ensures s != [] ==> exists x :: x in s
  {
    if s != [] {
      assert s[0] in s;
    }
  }

  /** A nonempty valid closure always contains genesis. */
  lemma GenesisReached(g: Graph, c: set<Id>)
    requires c != {} && ParentClosed(g, c)
    requires forall n :: n in c ==> NodeOk(g, n) && LoopFree(g, n)
    ensures GENESIS in c
  {
    var m := SourceExists(g, c);
    HasMember(g[m]);
  }

  /** Accepts exactly the acceptable graphs and returns exactly the closure of the roots. */
  method VerifiedClosure(g: Graph, roots: seq<Id>) returns (r: Result<set<Id>, GraphError>)
    ensures r.Ok? <==> Acceptable(g, roots)
    ensures r.Ok? ==> r.value == Closure(g, roots)
    ensures r.Err? ==> r.error != UnreachableGenesis
    ensures r.Err? && RootsOk(g, roots) ==> Explains(r.error, g, Closure(g, roots))
  {
    hide Past, LoopFree, NodeOk, PastOfParents;
    if GENESIS !in g || g[GENESIS] != [] { return Err(BadGenesis); }
    if roots == [] || |roots| > MAX_ROOTS { return Err(BadRoots); }
    DistinctCard(roots);
    if |roots| != |Elems(roots)| { return Err(DuplicateRoots); }
    var search := new ClosureSearch(g);
    ghost var c := Closure(g, roots);
    ClosureClosed(g, roots);
    var e := search.VisitAll(roots, c);
    if e.Some? {
      ExplainedNotOk(e.value, g, c);
      return Err(e.value);
    }
    assert search.visited == c;
    assert roots[0] in Elems(roots);
    GenesisReached(g, c);
    if GENESIS !in search.visited {
      assert false;
      return Err(UnreachableGenesis);
    }
    assert search.visited + search.visiting == c;
    return Ok(search.visited);
  }

  /** `g'` lists the same parents as `g`, possibly in another order. */
  ghost predicate SameLinks(g: Graph, g': Graph) {
    g.Keys == g'.Keys && forall n :: n in g ==> multiset(g[n]) == multiset(g'[n])
  }

  lemma SameElems<T>(s: seq<T>, t: seq<T>)
    requires multiset(s) == multiset(t)
    ensures Elems(s) == Elems(t) && |s| == |t| && (Distinct(s) <==> Distinct(t))
  {
    forall x
      ensures x in s <==> x in t
    {
      assert x in multiset(s) <==> x in multiset(t);
    }
    assert |multiset(s)| == |s| && |multiset(t)| == |t|;
    DistinctCard(s);
    DistinctCard(t);
  }

  lemma SameLinksPast(g: Graph, g': Graph, n: Id)
    requires SameLinks(g, g')
    ensures Past(g, n) == Past(g', n)
  {
    forall x | x in g
      ensures Elems(g[x]) == Elems(g'[x])
    {
      SameElems(g[x], g'[x]);
    }
    PastSame(g, g', n);
  }

  lemma SameNodes(g: Graph, g': Graph, n: Id)
    requires SameLinks(g, g')
    ensures NodeOk(g, n) ==> NodeOk(g', n)
    ensures LoopFree(g, n) ==> LoopFree(g', n)
  {
    if n in g {
      SameElems(g[n], g'[n]);
      forall p | p in g'[n]
        ensures p in g[n] && Past(g, p) == Past(g', p)
      {
        assert p in Elems(g'[n]);
        SameLinksPast(g, g', p);
      }
    }
  }

  lemma ClosureSame(g: Graph, g': Graph, roots: seq<Id>, roots': seq<Id>)
    requires SameLinks(g, g') && multiset(roots) == multiset(roots')
    ensures Closure(g, roots) == Closure(g', roots')
  {
    hide Past, Distinct;
    SameElems(roots, roots');
    forall r | r in roots
      ensures r in roots' && Past(g, r) == Past(g', r)
    {
      assert r in Elems(roots);
      SameLinksPast(g, g', r);
    }
    assert forall r :: r in roots' ==> r in Elems(roots);
  }

  lemma AcceptableCarries(g: Graph, g': Graph, roots: seq<Id>, roots': seq<Id>)
    requires SameLinks(g, g') && multiset(roots) == multiset(roots')
    requires Acceptable(g, roots)
    ensures Acceptable(g', roots')
  {
    hide Past, Distinct;
    SameElems(roots, roots');
    ClosureSame(g, g', roots, roots');
    var c := Closure(g, roots);
    forall n | n in c
      ensures NodeOk(g', n) && LoopFree(g', n)
      ensures Degrees(g)[n] == Degrees(g')[n]
    {
      SameNodes(g, g', n);
      SameElems(g[n], g'[n]);
    }
    SumSame(Degrees(g), Degrees(g'), c);
    assert multiset(g'[GENESIS]) == multiset([]);
  }

  /** Neither the closure nor its acceptance depends on the order of roots or parents. */
  lemma OrderIndependent(g: Graph, g': Graph, roots: seq<Id>, roots': seq<Id>)
    requires SameLinks(g, g') && multiset(roots) == multiset(roots')
    ensures Closure(g, roots) == Closure(g', roots')
    ensures Acceptable(g, roots) <==> Acceptable(g', roots')
  {
    ClosureSame(g, g', roots, roots');
    if Acceptable(g, roots) {
      AcceptableCarries(g, g', roots, roots');
    }
    if Acceptable(g', roots') {
      AcceptableCarries(g', g, roots', roots);
    }
  }

  // ---------- pasts and relations ----------

  ghost predicate Complete(g: Graph, n: Id) {
    Past(g, n) <= g.Keys
  }

  /** The stack search; every reachable label has a parent list, cycles or not. */
  method InclusivePast(g: Graph, node: Id) returns (past: set<Id>)
    requires Complete(g, node)
    ensures past == Past(g, node)
  {
    hide Past;
    past := {node};
    var stack := [node];
    PastSelf(g, node);
    while stack != []
      invariant node in past && past <= Past(g, node)
      invariant forall x :: x in stack ==> x in past
      invariant forall x, p :: x in past && x !in stack && p in g[x] ==> p in past
      decreases Past(g, node) - past, |stack|
    {
      var top := stack[|stack| - 1];
      ghost var before := stack;
      stack := stack[..|stack| - 1];
      assert before == stack + [top];
      past, stack := PushNew(g[top], past, stack);
    }
    PastLeast(g, node, past);
  }

  /** Adds unseen parents to the past and pushes them. */
  method PushNew(links: seq<Id>, past0: set<Id>, stack0: seq<Id>) returns (past: set<Id>, stack: seq<Id>)
    ensures past == past0 + Elems(links)
    ensures forall x :: x in stack <==> x in stack0 || x in past - past0
    ensures past == past0 ==> stack == stack0
  {
    past, stack := past0, stack0;
    for i := 0 to |links|
      invariant past == past0 + Elems(links[..i])
      invariant forall x :: x in stack <==> x in stack0 || x in past - past0
      invariant past == past0 ==> stack == stack0
    {
      assert links[..i + 1] == links[..i] + [links[i]];
      ElemsSnoc(links[..i], links[i]);
      if links[i] !in past {
        past := past + {links[i]};
        stack := stack + [links[i]];
      }
    }
    assert links[..|links|] == links;
  }

  datatype Relation = SameBlock | FirstIsAncestor | SecondIsAncestor | Anticone

  /** The relation of two labels, by pasts alone. */
  ghost predicate Relates(g: Graph, first: Id, second: Id, r: Relation) {
    match r
    case SameBlock => first == second
    case FirstIsAncestor => first != second && first in Past(g, second)
    case SecondIsAncestor => first != second && second in Past(g, first) && first !in Past(g, second)
    case Anticone => first !in Past(g, second) && second !in Past(g, first)
  }

  /** A verified closure: every member's past stays inside the graph. */
  ghost predicate Verified(g: Graph, closure: set<Id>) {
    exists roots :: Acceptable(g, roots) && closure == Closure(g, roots)
  }

  lemma VerifiedIntro(g: Graph, roots: seq<Id>)
    requires Acceptable(g, roots)
    ensures Verified(g, Closure(g, roots))
  {
  }

  lemma VerifiedComplete(g: Graph, closure: set<Id>, n: Id)
    requires Verified(g, closure) && n in closure
    ensures Past(g, n) <= closure && Complete(g, n)
    ensures LoopFree(g, n)
  {
    var roots :| Acceptable(g, roots) && closure == Closure(g, roots);
    ClosureClosed(g, roots);
    PastLeast(g, n, closure);
  }

  /** Works on any set of labels whose pasts have all their parent lists. */
  method PairRelation(g: Graph, closure: set<Id>, first: Id, second: Id)
    returns (r: Result<Relation, GraphError>)
    requires first in closure && second in closure && first != second ==> Complete(g, first) && Complete(g, second)
    ensures r.Ok? <==> first in closure && second in closure
    ensures r.Err? ==> r.error == OutsideClosure
    ensures r.Ok? ==> Relates(g, first, second, r.value)
  {
    if first !in closure || second !in closure { return Err(OutsideClosure); }
    if first == second { return Ok(SameBlock); }
    var past2 := InclusivePast(g, second);
    if first in past2 { return Ok(FirstIsAncestor); }
    var past1 := InclusivePast(g, first);
    if second in past1 { return Ok(SecondIsAncestor); }
    PastSelf(g, first);
    return Ok(Anticone);
  }

  /** Exactly one relation holds, and swapping the labels mirrors it. */
  lemma RelationExact(g: Graph, closure: set<Id>, first: Id, second: Id, r: Relation, s: Relation)
    requires Verified(g, closure) && first in closure && second in closure
    requires Relates(g, first, second, r) && Relates(g, second, first, s)
    ensures r == SameBlock <==> s == SameBlock
    ensures r == FirstIsAncestor <==> s == SecondIsAncestor
    ensures r == SecondIsAncestor <==> s == FirstIsAncestor
    ensures r == Anticone <==> s == Anticone
  {
    PastSelf(g, first);
    VerifiedComplete(g, closure, first);
    VerifiedComplete(g, closure, second);
    if first != second && first in Past(g, second) {
      PastShrinks(g, second, first);
    }
  }

  /** The named relation in terms of parent walks. */
  lemma RelationByWalks(g: Graph, first: Id, second: Id, r: Relation)
    requires Relates(g, first, second, r)
    ensures r == SameBlock ==> first == second
    ensures r == FirstIsAncestor ==> first != second && Reaches(g, second, first)
    ensures r == SecondIsAncestor ==> first != second && Reaches(g, first, second)
    ensures r == Anticone ==> !Reaches(g, first, second) && !Reaches(g, second, first)
  {
    hide Past;
    PastReaches(g, first, second);
    PastReaches(g, second, first);
  }

  method ParentRelativeMergeSet(g: Graph, roots: seq<Id>, selected: Id)
    returns (r: Result<seq<Id>, GraphError>)
    ensures r.Ok? <==> Acceptable(g, roots) && selected in roots
    ensures r.Ok? ==>
              && Ascending(r.value)
              && Elems(r.value) == Closure(g, roots) - Past(g, selected)
  {
    hide Past, Acceptable, Verified, Complete;
    var closure := VerifiedClosure(g, roots);
    if closure.Err? { return Err(closure.error); }
    if selected !in roots { return Err(NotARoot); }
    ClosureClosed(g, roots);
    assert forall x :: x in roots ==> x in Elems(roots);
    VerifiedIntro(g, roots);
    VerifiedComplete(g, closure.value, selected);
    var past := InclusivePast(g, selected);
    var other: set<Id> := {};
    for i := 0 to |roots|
      invariant other <= closure.value
      invariant forall j :: 0 <= j < i ==> Past(g, roots[j]) <= other + past
    {
      VerifiedComplete(g, closure.value, roots[i]);
      if roots[i] != selected {
        var rootPast := InclusivePast(g, roots[i]);
        other := other + rootPast;
      }
    }
    assert (other - past) * closure.value == Closure(g, roots) - Past(g, selected);
    var list := SortIds((other - past) * closure.value);
    return Ok(list);
  }
}
