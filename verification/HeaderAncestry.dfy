/**
 * Authentication of a complete genesis-rooted header corpus. The two digests are
 * arbitrary functions: `sha` of canonical bytes, `kheavy` of a preimage and nonce.
 */
module HeaderAncestry {
  import opened Ids
  import opened Dag
  import opened HeaderBytes
  import CompactTarget

  const MAX_HEADERS := 256

  datatype Entry = Entry(stated: Id, header: Header)

  type Corpus = map<Id, Header>

  datatype AncestryError =
    | BadPin | BadCorpusSize | NothingObserved | BadStatedId | BadHeader | UnboundId
    | DuplicateHeader | MissingGenesis | WrongGenesis | GenesisObserved | UnverifiedObserved
    | MissingParent | Unrooted | UnrelatedHeader | NoParents | Noncausal | BadHeight
    | BadTarget | NoWorkHash | BadWork

  datatype Summary = Summary(total: nat, checked: nat, observed: nat, historical: int)

  predicate ChainChar(c: char) {
    'A' <= c <= 'Z' || 'a' <= c <= 'z' || '0' <= c <= '9' || c in "_.:-"
  }

  predicate ChainPin(chain: string) {
    1 <= |chain| <= 128 && forall i :: 0 <= i < |chain| ==> ChainChar(chain[i])
  }

  function Parents(byId: Corpus): Graph {
    map b | b in byId :: byId[b].parents
  }

  /** Everything reachable from a set of blocks. */
  ghost function Ancestry(g: Graph, s: set<Id>): set<Id> {
    set o, y | o in s && y in Past(g, o) :: y
  }

  // ---------- acceptance ----------

  ghost predicate Bound(e: Entry, chain: string, sha: Bytes -> Id)
    requires ChainOk(chain)
  {
    && HexRoot(e.stated)
    && ShapeOk(e.header) && NonceOk(e.header)
    && sha(Encode(e.header, chain, true)) == e.stated
  }

  ghost predicate DistinctIds(es: seq<Entry>) {
    forall i, j :: 0 <= i < j < |es| ==> es[i].stated != es[j].stated
  }

  ghost function Index(es: seq<Entry>): Corpus {
    if es == [] then map[]
    else Index(es[..|es| - 1])[es[|es| - 1].stated := es[|es| - 1].header]
  }

  predicate GenesisOk(h: Header, ns: int) {
    h.height == 0 && h.parents == [] && h.blueScore == 0 && h.timestampNs == ns
  }

  /** Heights and timestamps grow along parent links, by exactly one past the highest parent. */
  ghost predicate Causal(byId: Corpus, h: Header) {
    && h.parents != []
    && (forall p :: p in h.parents ==>
          p in byId && byId[p].height < h.height && byId[p].timestampNs < h.timestampNs)
    && (exists p :: p in h.parents && byId[p].height == h.height - 1)
  }

  ghost predicate Mined(h: Header, chain: string, kheavy: (Bytes, int) -> Option<nat>)
    requires ChainOk(chain)
  {
    && ShapeOk(h)
    && CompactTarget.ValidV3(h.difficulty)
    && kheavy(Encode(h, chain, false), h.nonce).Some?
    && kheavy(Encode(h, chain, false), h.nonce).value <= CompactTarget.Expand(h.difficulty)
  }

  lemma PinnedChainOk(chain: string)
    requires ChainPin(chain)
    ensures ChainOk(chain)
  {
    forall i | 0 <= i < |chain|
      ensures 33 <= chain[i] as int <= 126
    {
      assert ChainChar(chain[i]);
    }
  }

  /** The ancestor closure of the observed blocks is the whole corpus, rooted in genesis. */
  ghost predicate Rooted(byId: Corpus, observed: set<Id>, genesis: Id, ns: int) {
    && genesis in byId && GenesisOk(byId[genesis], ns)
    && genesis !in observed
    && observed <= byId.Keys
    && Ancestry(Parents(byId), observed) == byId.Keys
  }

  ghost predicate Accepted(
      es: seq<Entry>, observed: set<Id>, chain: string, genesis: Id, ns: int,
      sha: Bytes -> Id, kheavy: (Bytes, int) -> Option<nat>)
  {
    && ChainPin(chain) && HexRoot(genesis) && 0 < ns < U64
    && 2 <= |es| <= MAX_HEADERS && observed != {}
    && (PinnedChainOk(chain); forall i :: 0 <= i < |es| ==> Bound(es[i], chain, sha))
    && DistinctIds(es)
    && Rooted(Index(es), observed, genesis, ns)
    && forall b :: b in Index(es) && b != genesis ==>
         Causal(Index(es), Index(es)[b]) && Mined(Index(es)[b], chain, kheavy)
  }

  // ---------- the closure worklist ----------

  method ToList(s: set<Id>) returns (q: seq<Id>)
    ensures Elems(q) == s
  {
    q := [];
    var rest := s;
    while rest != {}
      invariant rest <= s && Elems(q) == s - rest
      decreases |rest|
    {
      var x :| x in rest;
      ElemsSnoc(q, x);
      q := q + [x];
      rest := rest - {x};
    }
  }

  /** The worklist invariant: nothing reachable is lost, nothing else is collected. */
  ghost predicate Draining(byId: Corpus, observed: set<Id>, closure: set<Id>, todo: set<Id>) {
    && closure <= byId.Keys
    && closure + todo <= Ancestry(Parents(byId), observed)
    && observed <= closure + todo
    && forall x, p :: x in closure && p in byId[x].parents ==> p in closure + todo
  }

  lemma DrainAdd(byId: Corpus, observed: set<Id>, closure: set<Id>, todo: set<Id>, x: Id)
    requires Draining(byId, observed, closure, todo + {x}) && x in byId
    ensures Draining(byId, observed, closure + {x}, todo + Elems(byId[x].parents))
  {
    hide Ancestry;
    var g, all := Parents(byId), Ancestry(Parents(byId), observed);
    AncestryClosed(g, observed);
    assert x in closure + (todo + {x}) && x in all;
    forall p | p in byId[x].parents
      ensures p in all
    {
      assert p in g[x];
    }
    var closure', todo' := closure + {x}, todo + Elems(byId[x].parents);
    forall y, p | y in closure' && p in byId[y].parents
      ensures p in closure' + todo'
    {
      if y != x {
        assert p in closure + (todo + {x});
      }
    }
    assert observed <= closure' + todo';
  }

  lemma DrainSkip(byId: Corpus, observed: set<Id>, closure: set<Id>, todo: set<Id>, x: Id)
    requires Draining(byId, observed, closure, todo + {x}) && x in closure
    ensures Draining(byId, observed, closure, todo)
  {
    hide Ancestry;
    assert closure + (todo + {x}) == closure + todo;
  }

  lemma Drained(byId: Corpus, observed: set<Id>, closure: set<Id>)
    requires Draining(byId, observed, closure, {})
    ensures closure == Ancestry(Parents(byId), observed)
  {
    hide Ancestry;
    AncestryLeast(Parents(byId), observed, closure);
  }

  lemma ElemsConcat<T>(a: seq<T>, b: seq<T>)
    ensures Elems(a + b) == Elems(a) + Elems(b)
  {
  }

  /** Drains the pending list; terminates on cyclic corpora too. */
  method AncestorClosure(byId: Corpus, observed: set<Id>) returns (r: Option<set<Id>>)
    ensures r.Some? ==> r.value == Ancestry(Parents(byId), observed) <= byId.Keys
    ensures r.None? ==> !(Ancestry(Parents(byId), observed) <= byId.Keys)
  {
    hide Ancestry, Elems;
    AncestryClosed(Parents(byId), observed);
    var closure: set<Id> := {};
    var pending := ToList(observed);
    while pending != []
      invariant Draining(byId, observed, closure, Elems(pending))
      decreases byId.Keys - closure, |pending|
    {
      var current := pending[|pending| - 1];
      ghost var before := pending;
      pending := pending[..|pending| - 1];
      assert before == pending + [current];
      ElemsSnoc(pending, current);
      if current !in closure {
        if current !in byId { return None; }
        DrainAdd(byId, observed, closure, Elems(pending), current);
        ElemsConcat(pending, byId[current].parents);
        closure := closure + {current};
        pending := pending + byId[current].parents;
      } else {
        DrainSkip(byId, observed, closure, Elems(pending), current);
      }
    }
    assert Elems(pending) == {} by { NoElems(); }
    Drained(byId, observed, closure);
    return Some(closure);
  }

  lemma NoElems()
    ensures Elems<Id>([]) == {}
  {
  }

  lemma AncestryClosed(g: Graph, s: set<Id>)
    ensures s <= Ancestry(g, s) && ParentClosed(g, Ancestry(g, s))
  {
    forall o | o in s
      ensures o in Past(g, o) && ParentClosed(g, Past(g, o))
    {
      PastSelf(g, o);
    }
    forall x, p | x in Ancestry(g, s) && x in g && p in g[x]
      ensures p in Ancestry(g, s)
    {
      var o :| o in s && x in Past(g, o);
      assert p in Past(g, o);
    }
  }

  lemma AncestryLeast(g: Graph, s: set<Id>, c: set<Id>)
    requires s <= c && ParentClosed(g, c)
    ensures Ancestry(g, s) <= c
  {
    forall o | o in s
      ensures Past(g, o) <= c
    {
      PastLeast(g, o, c);
    }
  }

  // ---------- indexing ----------

  lemma {:induction false} IndexEntry(es: seq<Entry>, i: nat)
    requires DistinctIds(es) && i < |es|
    ensures es[i].stated in Index(es) && Index(es)[es[i].stated] == es[i].header
  {
    if i < |es| - 1 {
      IndexEntry(es[..|es| - 1], i);
      assert es[i].stated != es[|es| - 1].stated;
    }
  }

  lemma {:induction false} IndexKeys(es: seq<Entry>, b: Id)
    ensures b in Index(es) <==> exists i :: 0 <= i < |es| && es[i].stated == b
  {
    if es != [] {
      var d := es[..|es| - 1];
      IndexKeys(d, b);
      if b in Index(es) && b != es[|es| - 1].stated {
        var i :| 0 <= i < |d| && d[i].stated == b;
        assert es[i].stated == b;
      }
      if exists i :: 0 <= i < |es| && es[i].stated == b {
        var i :| 0 <= i < |es| && es[i].stated == b;
        assert i < |d| ==> d[i].stated == b;
      }
    }
  }

  lemma {:induction false} IndexSize(es: seq<Entry>)
    requires DistinctIds(es)
    ensures |Index(es)| == |es|
  {
    if es != [] {
      var d := es[..|es| - 1];
      IndexSize(d);
      IndexKeys(d, es[|es| - 1].stated);
    }
  }

  ghost predicate AllBound(es: seq<Entry>, chain: string, sha: Bytes -> Id)
    requires ChainOk(chain)
  {
    forall i :: 0 <= i < |es| ==> Bound(es[i], chain, sha)
  }

  /** Why one entry is refused. */
  ghost predicate EntryFault(f: AncestryError, e: Entry, chain: string, sha: Bytes -> Id)
    requires ChainOk(chain)
  {
    match f
    case BadStatedId => !HexRoot(e.stated)
    case BadHeader => !(ShapeOk(e.header) && NonceOk(e.header))
    case UnboundId => ShapeOk(e.header) && NonceOk(e.header) && sha(Encode(e.header, chain, true)) != e.stated
    case _ => false
  }

  ghost predicate IndexFault(f: AncestryError, es: seq<Entry>, chain: string, sha: Bytes -> Id)
    requires ChainOk(chain)
  {
    if f.DuplicateHeader? then !DistinctIds(es)
    else exists i :: 0 <= i < |es| && EntryFault(f, es[i], chain, sha)
  }

  /** Recomputes one stated id from the header's canonical bytes. */
  method CheckEntry(e: Entry, chain: string, sha: Bytes -> Id) returns (r: Option<AncestryError>)
    requires ChainOk(chain)
    ensures r.None? <==> Bound(e, chain, sha)
    ensures r.Some? ==> EntryFault(r.value, e, chain, sha)
  {
    hide Encode;
    if !HexRoot(e.stated) { return Some(BadStatedId); }
    var bytes := CanonicalHeader(e.header, chain, true);
    if bytes.Err? { return Some(BadHeader); }
    if sha(bytes.value) != e.stated { return Some(UnboundId); }
    return None;
  }

  lemma DistinctSnoc(es: seq<Entry>, e: Entry)
    requires DistinctIds(es)
    ensures DistinctIds(es + [e]) <==> e.stated !in Index(es)
  {
    hide Index;
    IndexKeys(es, e.stated);
    if e.stated in Index(es) {
      var j :| 0 <= j < |es| && es[j].stated == e.stated;
      assert (es + [e])[j].stated == (es + [e])[|es|].stated;
    }
  }

  lemma IndexSnoc(es: seq<Entry>, e: Entry)
    ensures Index(es + [e]) == Index(es)[e.stated := e.header]
  {
    assert (es + [e])[..|es|] == es;
  }

  lemma DistinctPrefix(es: seq<Entry>, i: nat)
    requires DistinctIds(es) && i <= |es|
    ensures DistinctIds(es[..i])
  {
  }

  /** Checks every header's bytes and fills the dictionary. */
  method IndexHeaders(es: seq<Entry>, chain: string, sha: Bytes -> Id) returns (r: Result<Corpus, AncestryError>)
    requires ChainOk(chain)
    ensures r.Ok? <==> AllBound(es, chain, sha) && DistinctIds(es)
    ensures r.Ok? ==> r.value == Index(es)
    ensures r.Err? ==> IndexFault(r.error, es, chain, sha)
  {
    hide Bound, ChainOk, DistinctIds, EntryFault;
    var byId: Corpus := map[];
    assert DistinctIds(es[..0]) by { NoEntries(); }
    for i := 0 to |es|
      invariant forall j :: 0 <= j < i ==> Bound(es[j], chain, sha)
      invariant DistinctIds(es[..i])
      invariant byId == Index(es[..i])
    {
      var e := es[i];
      var bad := CheckEntry(e, chain, sha);
      if bad.Some? {
        FaultNotDuplicate(bad.value, e, chain, sha);
        return Err(bad.value);
      }
      assert es[..i + 1] == es[..i] + [e];
      DistinctSnoc(es[..i], e);
      IndexSnoc(es[..i], e);
      if e.stated in byId {
        if DistinctIds(es) {
          DistinctPrefix(es, i + 1);
        }
        return Err(DuplicateHeader);
      }
      byId := byId[e.stated := e.header];
    }
    assert es[..|es|] == es;
    return Ok(byId);
  }

  lemma FaultNotDuplicate(f: AncestryError, e: Entry, chain: string, sha: Bytes -> Id)
    requires ChainOk(chain) && EntryFault(f, e, chain, sha)
    ensures !f.DuplicateHeader?
  {
  }

  lemma NoEntries()
    ensures DistinctIds([])
  {
  }

  method MaxParentHeight(byId: Corpus, ps: seq<Id>) returns (h: int)
    requires ps != [] && forall p :: p in ps ==> p in byId
    ensures exists p :: p in ps && byId[p].height == h
    ensures forall p :: p in ps ==> byId[p].height <= h
  {
    assert ps[0] in ps;
    h := byId[ps[0]].height;
    for i := 1 to |ps|
      invariant exists p :: p in ps && byId[p].height == h
      invariant forall j :: 0 <= j < i ==> ps[j] in byId && byId[ps[j]].height <= h
    {
      assert ps[i] in ps;
      if byId[ps[i]].height > h {
        h := byId[ps[i]].height;
      }
    }
  }

  /** Why one block does not follow from its parents. */
  ghost predicate ParentFault(f: AncestryError, byId: Corpus, h: Header) {
    match f
    case NoParents => h.parents == []
    case MissingParent => exists p :: p in h.parents && p !in byId
    case Noncausal => exists p :: p in h.parents && p in byId &&
                        !(byId[p].height < h.height && byId[p].timestampNs < h.timestampNs)
    case BadHeight => forall p :: p in h.parents ==> p in byId && byId[p].height != h.height - 1
    case _ => false
  }

  /** Why one block is refused. */
  ghost predicate BlockFault(
      f: AncestryError, byId: Corpus, h: Header, chain: string, kheavy: (Bytes, int) -> Option<nat>)
    requires ChainOk(chain) && ShapeOk(h)
  {
    || ParentFault(f, byId, h)
    || (f.BadTarget? && !CompactTarget.ValidV3(h.difficulty))
    || (f.NoWorkHash? && kheavy(Encode(h, chain, false), h.nonce).None?)
    || (f.BadWork? && kheavy(Encode(h, chain, false), h.nonce).Some? &&
          kheavy(Encode(h, chain, false), h.nonce).value > CompactTarget.Expand(h.difficulty))
  }

  /** The parent and height checks of one non-genesis block. */
  method CheckParents(byId: Corpus, h: Header) returns (e: Option<AncestryError>)
    ensures e.None? <==> Causal(byId, h)
    ensures e.Some? ==> ParentFault(e.value, byId, h)
  {
    if h.parents == [] { return Some(NoParents); }
    for i := 0 to |h.parents|
      invariant forall j :: 0 <= j < i ==>
                  && h.parents[j] in byId
                  && byId[h.parents[j]].height < h.height
                  && byId[h.parents[j]].timestampNs < h.timestampNs
    {
      var p := h.parents[i];
      assert p in h.parents;
      if p !in byId { return Some(MissingParent); }
      if !(byId[p].height < h.height && byId[p].timestampNs < h.timestampNs) { return Some(Noncausal); }
    }
    var top := MaxParentHeight(byId, h.parents);
    if h.height != 1 + top { return Some(BadHeight); }
    return None;
  }

  /** Causality and proof of work of one non-genesis block. */
  method CheckBlock(byId: Corpus, h: Header, chain: string, kheavy: (Bytes, int) -> Option<nat>)
    returns (e: Option<AncestryError>)
    requires ChainOk(chain) && ShapeOk(h)
    ensures e.None? <==> Causal(byId, h) && Mined(h, chain, kheavy)
    ensures e.Some? ==> BlockFault(e.value, byId, h, chain, kheavy)
  {
    hide Encode, Causal, ParentFault, CompactTarget.Expand, CompactTarget.ValidV3;
    e := CheckParents(byId, h);
    if e.Some? { return; }
    if !CompactTarget.ValidV3(h.difficulty) { return Some(BadTarget); }
    var preimage := CanonicalHeader(h, chain, false);
    var digest := kheavy(preimage.value, h.nonce);
    if digest.None? { return Some(NoWorkHash); }
    if digest.value > CompactTarget.Expand(h.difficulty) { return Some(BadWork); }
    return None;
  }

  ghost predicate AllChecked(byId: Corpus, chain: string, genesis: Id, kheavy: (Bytes, int) -> Option<nat>)
    requires ChainOk(chain)
  {
    forall b :: b in byId && b != genesis ==> Causal(byId, byId[b]) && Mined(byId[b], chain, kheavy)
  }

  ghost predicate SomeBlockFault(
      f: AncestryError, byId: Corpus, chain: string, genesis: Id, kheavy: (Bytes, int) -> Option<nat>)
    requires ChainOk(chain)
  {
    exists b :: b in byId && b != genesis && ShapeOk(byId[b]) && BlockFault(f, byId, byId[b], chain, kheavy)
  }

  method CheckAll(es: seq<Entry>, byId: Corpus, chain: string, genesis: Id, kheavy: (Bytes, int) -> Option<nat>)
    returns (r: Result<nat, AncestryError>)
    requires ChainOk(chain) && DistinctIds(es) && byId == Index(es) && genesis in byId
    requires forall i :: 0 <= i < |es| ==> ShapeOk(es[i].header)
    ensures r.Ok? <==> AllChecked(byId, chain, genesis, kheavy)
    ensures r.Ok? ==> r.value == |es| - 1
    ensures r.Err? ==> SomeBlockFault(r.error, byId, chain, genesis, kheavy)
  {
    hide Causal, Mined, ShapeOk, Index, BlockFault;
    IndexKeys(es, genesis);
    ghost var g :| 0 <= g < |es| && es[g].stated == genesis;
    var checked := 0;
    for i := 0 to |es|
      invariant forall j :: 0 <= j < i && es[j].stated != genesis ==>
                  Causal(byId, es[j].header) && Mined(es[j].header, chain, kheavy)
      invariant checked == if i <= g then i else i - 1
    {
      IndexEntry(es, i);
      if es[i].stated != genesis {
        var e := CheckBlock(byId, es[i].header, chain, kheavy);
        if e.Some? {
          assert byId[es[i].stated] == es[i].header;
          return Err(e.value);
        }
        checked := checked + 1;
      }
    }
    forall b | b in byId && b != genesis
      ensures Causal(byId, byId[b]) && Mined(byId[b], chain, kheavy)
    {
      IndexKeys(es, b);
      var i :| 0 <= i < |es| && es[i].stated == b;
      IndexEntry(es, i);
    }
    return Ok(checked);
  }

  /** Why an indexed corpus is not rooted. */
  ghost predicate RootFault(f: AncestryError, byId: Corpus, observed: set<Id>, genesis: Id, ns: int) {
    match f
    case MissingGenesis => genesis !in byId
    case WrongGenesis => genesis in byId && !GenesisOk(byId[genesis], ns)
    case GenesisObserved => genesis in observed
    case UnverifiedObserved => !(observed <= byId.Keys)
    case MissingParent => !(Ancestry(Parents(byId), observed) <= byId.Keys)
    case Unrooted => genesis !in Ancestry(Parents(byId), observed)
    case UnrelatedHeader => Ancestry(Parents(byId), observed) < byId.Keys
    case _ => false
  }

  /** The pins, genesis and closure checks on an indexed corpus. */
  method CheckRoot(byId: Corpus, observed: set<Id>, genesis: Id, ns: int) returns (e: Option<AncestryError>)
    requires observed != {}
    ensures e.None? <==> Rooted(byId, observed, genesis, ns)
    ensures e.Some? ==> RootFault(e.value, byId, observed, genesis, ns)
  {
    hide Ancestry, Parents;
    if genesis !in byId { return Some(MissingGenesis); }
    if !GenesisOk(byId[genesis], ns) { return Some(WrongGenesis); }
    if genesis in observed { return Some(GenesisObserved); }
    if !(observed <= byId.Keys) { return Some(UnverifiedObserved); }
    var closure := AncestorClosure(byId, observed);
    if closure.None? { return Some(MissingParent); }
    if genesis !in closure.value { return Some(Unrooted); }
    if closure.value != byId.Keys { return Some(UnrelatedHeader); }
    return None;
  }

  /** Why a corpus is refused. */
  ghost predicate Fault(
      f: AncestryError, es: seq<Entry>, observed: set<Id>, chain: string, genesis: Id, ns: int,
      sha: Bytes -> Id, kheavy: (Bytes, int) -> Option<nat>)
  {
    match f
    case BadPin => !(ChainPin(chain) && HexRoot(genesis) && 0 < ns < U64)
    case BadCorpusSize => !(2 <= |es| <= MAX_HEADERS)
    case NothingObserved => observed == {}
    case _ =>
      && ChainPin(chain)
      && (PinnedChainOk(chain);
          || IndexFault(f, es, chain, sha)
          || RootFault(f, Index(es), observed, genesis, ns)
          || SomeBlockFault(f, Index(es), chain, genesis, kheavy))
  }

  /** Accepts exactly the complete, causal, mined corpora rooted in the pinned genesis. */
  method VerifyAncestry(
      es: seq<Entry>, observed: set<Id>, chain: string, genesis: Id, ns: int,
      sha: Bytes -> Id, kheavy: (Bytes, int) -> Option<nat>)
    returns (r: Result<Summary, AncestryError>)
    ensures r.Ok? <==> Accepted(es, observed, chain, genesis, ns, sha, kheavy)
    ensures r.Ok? ==>
              r.value == Summary(|es|, |es| - 1, |observed|, |es| - 1 - |observed|)
              && r.value.historical >= 0
    ensures r.Err? ==> Fault(r.error, es, observed, chain, genesis, ns, sha, kheavy)
  {
    hide IndexFault, RootFault, SomeBlockFault;
    hide Bound, Causal, Mined, Ancestry, DistinctIds, Index, ChainPin, ChainOk;
    if !ChainPin(chain) || !HexRoot(genesis) || !(0 < ns < U64) { return Err(BadPin); }
    PinnedChainOk(chain);
    if !(2 <= |es| <= MAX_HEADERS) { return Err(BadCorpusSize); }
    if observed == {} { return Err(NothingObserved); }
    var indexed := IndexHeaders(es, chain, sha);
    if indexed.Err? {
      IndexFaults(indexed.error, es, chain, sha);
      return Err(indexed.error);
    }
    var byId := indexed.value;
    var e := CheckRoot(byId, observed, genesis, ns);
    if e.Some? {
      RootFaults(e.value, byId, observed, genesis, ns);
      return Err(e.value);
    }
    BoundShapes(es, chain, sha);
    var checked := CheckAll(es, byId, chain, genesis, kheavy);
    if checked.Err? {
      BlockFaults(checked.error, byId, chain, genesis, kheavy);
      return Err(checked.error);
    }
    IndexSize(es);
    SubsetCard(observed + {genesis}, byId.Keys);
    assert |observed + {genesis}| == |observed| + 1;
    return Ok(Summary(|byId|, checked.value, |observed|, checked.value - |observed|));
  }

  predicate Preliminary(f: AncestryError) {
    f.BadPin? || f.BadCorpusSize? || f.NothingObserved?
  }

  lemma IndexFaults(f: AncestryError, es: seq<Entry>, chain: string, sha: Bytes -> Id)
    requires ChainOk(chain) && IndexFault(f, es, chain, sha)
    ensures !Preliminary(f)
  {
  }

  lemma RootFaults(f: AncestryError, byId: Corpus, observed: set<Id>, genesis: Id, ns: int)
    requires RootFault(f, byId, observed, genesis, ns)
    ensures !Preliminary(f)
  {
  }

  lemma BlockFaults(f: AncestryError, byId: Corpus, chain: string, genesis: Id, kheavy: (Bytes, int) -> Option<nat>)
    requires ChainOk(chain) && SomeBlockFault(f, byId, chain, genesis, kheavy)
    ensures !Preliminary(f)
  {
  }

  lemma BoundShapes(es: seq<Entry>, chain: string, sha: Bytes -> Id)
    requires ChainOk(chain) && AllBound(es, chain, sha)
    ensures forall i :: 0 <= i < |es| ==> ShapeOk(es[i].header)
  {
    forall i | 0 <= i < |es|
      ensures ShapeOk(es[i].header)
    {
      assert Bound(es[i], chain, sha);
    }
  }

  // ---------- what acceptance means ----------

  /** A causal corpus over a genesis of height zero. */
  ghost predicate CausalCorpus(byId: Corpus, genesis: Id) {
    && genesis in byId && byId[genesis].height == 0 && byId[genesis].parents == []
    && (forall b :: b in byId ==> byId[b].height >= 0)
    && forall b :: b in byId && b != genesis ==> Causal(byId, byId[b])
  }

  /** An accepted corpus is causal and is exactly the ancestor closure of the observed blocks. */
  lemma AcceptedIsCausal(
      es: seq<Entry>, observed: set<Id>, chain: string, genesis: Id, ns: int,
      sha: Bytes -> Id, kheavy: (Bytes, int) -> Option<nat>)
    requires Accepted(es, observed, chain, genesis, ns, sha, kheavy)
    ensures CausalCorpus(Index(es), genesis)
    ensures Ancestry(Parents(Index(es)), observed) == Index(es).Keys
  {
    hide Index, Bound, Causal, Mined, Ancestry, ChainPin, ChainOk, DistinctIds;
    PinnedChainOk(chain);
    assert AllBound(es, chain, sha);
    BoundShapes(es, chain, sha);
    forall b | b in Index(es)
      ensures Index(es)[b].height >= 0
    {
      IndexKeys(es, b);
      var i :| 0 <= i < |es| && es[i].stated == b;
      IndexEntry(es, i);
    }
  }

  /** Genesis is the only header without parents. */
  lemma OnlyGenesisParentless(byId: Corpus, genesis: Id, b: Id)
    requires CausalCorpus(byId, genesis) && b in byId
    ensures byId[b].parents == [] <==> b == genesis
  {
    assert b != genesis ==> Causal(byId, byId[b]);
  }

  /** Every walk descends strictly and is no longer than the height of its first block. */
  lemma {:induction false} WalkWithinHeight(byId: Corpus, genesis: Id, w: seq<Id>)
    requires CausalCorpus(byId, genesis) && Walk(Parents(byId), w) && w[0] in byId
    ensures w[|w| - 1] in byId
    ensures |w| - 1 + byId[w[|w| - 1]].height <= byId[w[0]].height
  {
    if |w| > 1 {
      assert w[1] in byId[w[0]].parents;
      assert Causal(byId, byId[w[0]]);
      WalkWithinHeight(byId, genesis, w[1..]);
    }
  }

  /** Timestamps strictly fall along every walk. */
  lemma {:induction false} WalkGoesBack(byId: Corpus, genesis: Id, w: seq<Id>)
    requires CausalCorpus(byId, genesis) && Walk(Parents(byId), w) && w[0] in byId && |w| > 1
    ensures w[|w| - 1] in byId && byId[w[|w| - 1]].timestampNs < byId[w[0]].timestampNs
  {
    assert w[1] in Parents(byId)[w[0]];
    assert Causal(byId, byId[w[0]]);
    if |w| > 2 {
      WalkGoesBack(byId, genesis, w[1..]);
    }
  }

  /** A work hash equal to the target passes, the next larger one does not. */
  lemma WorkBoundary(h: Header, chain: string, digest: nat, kheavy: (Bytes, int) -> Option<nat>)
    requires ChainOk(chain) && ShapeOk(h) && CompactTarget.ValidV3(h.difficulty)
    requires kheavy(Encode(h, chain, false), h.nonce) == Some(digest)
    ensures digest == CompactTarget.Expand(h.difficulty) ==> Mined(h, chain, kheavy)
    ensures digest == CompactTarget.Expand(h.difficulty) + 1 ==> !Mined(h, chain, kheavy)
  {
  }

  /** What acceptance promises of each header, with the limits written out. */
  lemma AcceptedMeans(
      es: seq<Entry>, observed: set<Id>, chain: string, genesis: Id, ns: int,
      sha: Bytes -> Id, kheavy: (Bytes, int) -> Option<nat>, i: nat)
    requires Accepted(es, observed, chain, genesis, ns, sha, kheavy) && i < |es|
    ensures 2 <= |es| <= 256 && ChainOk(chain) && ShapeOk(es[i].header) && NonceOk(es[i].header)
    ensures sha(Encode(es[i].header, chain, true)) == es[i].stated
    ensures es[i].stated == genesis ==>
              var h := es[i].header; h.height == 0 && h.parents == [] && h.blueScore == 0 && h.timestampNs == ns
    ensures es[i].stated != genesis ==>
              && kheavy(Encode(es[i].header, chain, false), es[i].header.nonce).Some?
              && CompactTarget.ValidV3(es[i].header.difficulty)
              && kheavy(Encode(es[i].header, chain, false), es[i].header.nonce).value
                 <= CompactTarget.Expand(es[i].header.difficulty)
    ensures genesis !in observed
  {
    PinnedChainOk(chain);
    IndexEntry(es, i);
    hide Index, Encode, CompactTarget.Expand, CompactTarget.ValidV3, Ancestry;
    assert Bound(es[i], chain, sha);
    assert es[i].stated in Index(es);
  }

  /** Some walk to genesis is exactly as long as the height says. */
  lemma {:induction false} HeightReached(byId: Corpus, genesis: Id, b: Id) returns (w: seq<Id>)
    requires CausalCorpus(byId, genesis) && b in byId
    ensures WalkBetween(Parents(byId), w, b, genesis)
    ensures |w| == byId[b].height + 1
    decreases byId[b].height
  {
    if b == genesis {
      w := [b];
    } else {
      assert Causal(byId, byId[b]);
      var p :| p in byId[b].parents && byId[p].height == byId[b].height - 1;
      var v := HeightReached(byId, genesis, p);
      w := [b] + v;
      assert w[1..] == v;
    }
  }

  /** An accepted corpus has no cycle. */
  lemma CorpusAcyclic(byId: Corpus, genesis: Id)
    requires CausalCorpus(byId, genesis)
    ensures Acyclic(Parents(byId))
  {
    var g := Parents(byId);
    forall x, p | x in g && p in g[x]
      ensures x !in Past(g, p)
    {
      if x in Past(g, p) {
        var w :| WalkBetween(g, w, p, x);
        assert ([x] + w)[1..] == w;
        WalkWithinHeight(byId, genesis, [x] + w);
      }
    }
  }

  /** Each height is the length of the longest parent walk, which ends in genesis. */
  lemma HeightIsLongestWalk(byId: Corpus, genesis: Id, b: Id)
    requires CausalCorpus(byId, genesis) && b in byId
    ensures exists w :: WalkBetween(Parents(byId), w, b, genesis) && |w| == byId[b].height + 1
    ensures forall w, y :: WalkBetween(Parents(byId), w, b, y) ==> |w| <= byId[b].height + 1
  {
    var w := HeightReached(byId, genesis, b);
    forall v, y | WalkBetween(Parents(byId), v, b, y)
      ensures |v| <= byId[b].height + 1
    {
      WalkWithinHeight(byId, genesis, v);
    }
  }
}
