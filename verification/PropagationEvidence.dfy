/** Pair accounting over a valid trace, and what the reported bounds say about the true delays. */
module PropagationEvidence {
  import opened Ids
  import opened OrderStatistics
  import opened Propagation

  // ---------- pairs ----------

  /** Every block with every node other than its source. */
  ghost function PairsOf(t: Trace, blocks: set<Id>): set<Pair>
    requires blocks <= t.index.mined.Keys
  {
    set b, n | b in blocks && n in t.nodes && n != t.index.mined[b].source :: (b, n)
  }

  ghost function Pairs(t: Trace): set<Pair> {
    PairsOf(t, t.index.mined.Keys)
  }

  predicate Known(t: Trace, p: Pair) {
    p in t.index.events && p.1 in t.nodes && p.0 in t.index.mined && t.index.mined[p.0].source in t.nodes
  }

  /** The corrected delay of an observed pair; may be negative within the clock slack. */
  function Delay(t: Trace, p: Pair): int {
    if Known(t, p) then t.index.events[p].wall - t.nodes[p.1].offset - t.index.mined[p.0].produced else 0
  }

  /** The two clock uncertainties of a pair. */
  function Slack(t: Trace, p: Pair): int {
    if Known(t, p) then t.nodes[p.1].uncertainty + t.nodes[t.index.mined[p.0].source].uncertainty else 0
  }

  function Floor0(x: int): int {
    if x < 0 then 0 else x
  }

  function Raw(t: Trace): Pair -> int {
    p => Delay(t, p)
  }

  function Shown(t: Trace): Pair -> int {
    p => Floor0(Delay(t, p))
  }

  function Stretched(t: Trace): Pair -> int {
    p => Floor0(Delay(t, p) + Slack(t, p))
  }

  datatype Measured = Measured(delays: seq<int>, uppers: seq<int>, missing: nat, early: nat)

  /** Which pairs were observed and which are missing, in the order visited. */
  datatype Ledger = Ledger(obs: seq<Pair>, miss: seq<Pair>)

  ghost function Listed(l: Ledger): set<Pair> {
    Elems(l.obs) + Elems(l.miss)
  }

  ghost predicate Reliable(t: Trace, p: Pair) {
    p in t.index.events ==> Delay(t, p) + Slack(t, p) >= 0
  }

  /** The ledger is split by the event index without repetition, and `m` is its measurement. */
  ghost predicate Measures(t: Trace, l: Ledger, m: Measured) {
    && Distinct(l.obs) && Distinct(l.miss)
    && (forall p :: p in Elems(l.obs) ==> p in t.index.events && Reliable(t, p))
    && (forall p :: p in Elems(l.miss) ==> p !in t.index.events)
    && m.delays == Values(l.obs, Shown(t))
    && m.uppers == Values(l.obs, Stretched(t))
    && m.missing == |l.miss|
    && m.early == CountLe(Values(l.obs, Raw(t)), -1)
  }

  lemma ValuesSnoc<K>(keys: seq<K>, k: K, f: K -> int)
    ensures Values(keys + [k], f) == Values(keys, f) + [f(k)]
  {
  }

  lemma AddObserved(t: Trace, l: Ledger, m: Measured, p: Pair)
    requires Measures(t, l, m) && p in t.index.events && Reliable(t, p) && p !in Elems(l.obs)
    ensures Measures(t, l.(obs := l.obs + [p]),
                     Measured(m.delays + [Shown(t)(p)], m.uppers + [Stretched(t)(p)], m.missing,
                              if Delay(t, p) < 0 then m.early + 1 else m.early))
    ensures Listed(l.(obs := l.obs + [p])) == Listed(l) + {p}
  {
    hide Distinct, Elems, Values;
    SnocDistinct(l.obs, p);
    ElemsSnoc(l.obs, p);
    ValuesSnoc(l.obs, p, Shown(t));
    ValuesSnoc(l.obs, p, Stretched(t));
    ValuesSnoc(l.obs, p, Raw(t));
    CountConcat(Values(l.obs, Raw(t)), [Delay(t, p)], -1);
    assert [Delay(t, p)][1..] == [];
  }

  lemma AddMissing(t: Trace, l: Ledger, m: Measured, p: Pair)
    requires Measures(t, l, m) && p !in t.index.events && p !in Elems(l.miss)
    ensures Measures(t, l.(miss := l.miss + [p]), m.(missing := m.missing + 1))
    ensures Listed(l.(miss := l.miss + [p])) == Listed(l) + {p}
  {
    hide Distinct, Elems, Values;
    SnocDistinct(l.miss, p);
    ElemsSnoc(l.miss, p);
  }

  // ---------- measuring ----------

  /** One pair: count it as missing, reject it, or record its delay. */
  method MeasurePair(t: Trace, p: Pair, m: Measured, ghost l: Ledger)
    returns (r: Result<Measured, TraceError>, ghost l': Ledger)
    requires TraceOk(t) && Measures(t, l, m) && p !in Listed(l) && p in Pairs(t)
    ensures r.Ok? <==> Reliable(t, p)
    ensures r.Err? ==> r.error == PredatesMining
    ensures r.Ok? ==> Measures(t, l', r.value) && Listed(l') == Listed(l) + {p}
    ensures r.Ok? ==> |l'.obs| + |l'.miss| == |l.obs| + |l.miss| + 1
  {
    hide Distinct, Elems, Values, Measures;
    l' := l;
    if p !in t.index.events {
      AddMissing(t, l, m, p);
      l' := l.(miss := l.miss + [p]);
      return Ok(m.(missing := m.missing + 1)), l';
    }
    PairFacts(t, p);
    if t.index.events[p].event != "received" {
      assert false;
      return Err(NotReceived), l;
    }
    var delay := t.index.events[p].wall - t.nodes[p.1].offset - t.index.mined[p.0].produced;
    var slack := t.nodes[p.1].uncertainty + t.nodes[t.index.mined[p.0].source].uncertainty;
    if delay + slack < 0 { return Err(PredatesMining), l; }
    AddObserved(t, l, m, p);
    var early := if delay < 0 then m.early + 1 else m.early;
    var next := Measured(m.delays + [Floor0(delay)], m.uppers + [Floor0(delay + slack)], m.missing, early);
    l' := l.(obs := l.obs + [p]);
    return Ok(next), l';
  }

  lemma PairFacts(t: Trace, p: Pair)
    requires TraceOk(t) && p in Pairs(t)
    ensures p.0 in t.index.mined && p.1 in t.nodes && p.1 != t.index.mined[p.0].source
    ensures t.index.mined[p.0].source in t.nodes
    ensures p in t.index.events ==> t.index.events[p].event == "received" && Known(t, p)
  {
    hide Distinct, Elems;
    assert OriginOk(t.nodes, t.index, p.0);
    if p in t.index.events {
      assert EventOk(t, p);
    }
  }

  /** The pairs of one block with the first receivers of a list. */
  ghost function BlockPairs(t: Trace, b: Id, ids: seq<Id>): set<Pair>
    requires b in t.index.mined
  {
    set n | n in ids && n != t.index.mined[b].source :: (b, n)
  }

  lemma BlockPairsSnoc(t: Trace, b: Id, ids: seq<Id>, n: Id)
    requires b in t.index.mined
    ensures BlockPairs(t, b, ids + [n]) ==
            BlockPairs(t, b, ids) + (if n != t.index.mined[b].source then {(b, n)} else {})
  {
  }

  ghost predicate AllReliable(t: Trace, s: set<Pair>) {
    forall p :: p in s ==> Reliable(t, p)
  }

  /** The inner loop: all receivers of one block. */
  method MeasureBlock(t: Trace, b: Id, m0: Measured, ghost l0: Ledger)
    returns (r: Result<Measured, TraceError>, ghost l: Ledger)
    requires TraceOk(t) && Measures(t, l0, m0) && b in t.index.mined
    requires forall p :: p in Listed(l0) ==> p.0 != b
    ensures r.Ok? <==> AllReliable(t, BlockPairs(t, b, t.ids))
    ensures r.Err? ==> r.error == PredatesMining
    ensures r.Ok? ==> Measures(t, l, r.value)
    ensures r.Ok? ==> Listed(l) == Listed(l0) + BlockPairs(t, b, t.ids)
    ensures r.Ok? ==> |l.obs| + |l.miss| == |l0.obs| + |l0.miss| + |t.ids| - 1
  {
    hide Measures, TraceOk, Listed, Pairs, Reliable;
    var m := m0;
    l := l0;
    ghost var source := t.index.mined[b].source;
    ghost var at := SourcePosition(t, b);
    for i := 0 to |t.ids|
      invariant Measures(t, l, m)
      invariant Listed(l) == Listed(l0) + BlockPairs(t, b, t.ids[..i])
      invariant AllReliable(t, BlockPairs(t, b, t.ids[..i]))
      invariant |l.obs| + |l.miss| == |l0.obs| + |l0.miss| + (if i <= at then i else i - 1)
    {
      var n := t.ids[i];
      assert t.ids[..i + 1] == t.ids[..i] + [n];
      BlockPairsSnoc(t, b, t.ids[..i], n);
      OnlySourcePosition(t, b, at, i);
      if n != t.index.mined[b].source {
        NewPair(t, b, i);
        var step;
        step, l := MeasurePair(t, (b, n), m, l);
        if step.Err? {
          assert (b, n) in BlockPairs(t, b, t.ids);
          return Err(step.error), l;
        }
        m := step.value;
      }
    }
    assert t.ids[..|t.ids|] == t.ids;
    return Ok(m), l;
  }

  /** Where a block's source stands in the node list. */
  ghost function SourcePosition(t: Trace, b: Id): (at: nat)
    requires TraceOk(t) && b in t.index.mined
    ensures at < |t.ids| && t.ids[at] == t.index.mined[b].source
  {
    assert OriginOk(t.nodes, t.index, b);
    assert t.index.mined[b].source in Elems(t.ids);
    var at :| 0 <= at < |t.ids| && t.ids[at] == t.index.mined[b].source;
    at
  }

  lemma OnlySourcePosition(t: Trace, b: Id, at: nat, i: nat)
    requires TraceOk(t) && b in t.index.mined && at < |t.ids| && t.ids[at] == t.index.mined[b].source && i < |t.ids|
    ensures t.ids[i] == t.index.mined[b].source <==> i == at
  {
  }

  lemma NewPair(t: Trace, b: Id, i: nat)
    requires TraceOk(t) && b in t.index.mined && i < |t.ids| && t.ids[i] != t.index.mined[b].source
    ensures (b, t.ids[i]) !in BlockPairs(t, b, t.ids[..i])
    ensures (b, t.ids[i]) in Pairs(t)
  {
    assert t.ids[i] in Elems(t.ids);
    forall j | 0 <= j < i
      ensures t.ids[j] != t.ids[i]
    {
    }
  }

  lemma PairsOfSnoc(t: Trace, blocks: seq<Id>, b: Id)
    requires Elems(t.ids) == t.nodes.Keys && Elems(blocks + [b]) <= t.index.mined.Keys
    ensures Elems(blocks) <= t.index.mined.Keys && b in t.index.mined
    ensures PairsOf(t, Elems(blocks + [b])) == PairsOf(t, Elems(blocks)) + BlockPairs(t, b, t.ids)
  {
    ElemsSnoc(blocks, b);
    assert forall n :: n in t.ids <==> n in Elems(t.ids);
  }

  /** The outer loop over mined blocks; the accounting check cannot fail. */
  method MeasureAll(t: Trace) returns (r: Result<Measured, TraceError>, ghost l: Ledger)
    requires TraceOk(t)
    ensures r.Ok? <==> AllReliable(t, Pairs(t))
    ensures r.Err? ==> r.error == PredatesMining
    ensures r.Ok? ==> Measures(t, l, r.value) && Listed(l) == Pairs(t)
    ensures r.Ok? ==> |r.value.delays| + r.value.missing == |t.index.mined| * (|t.nodes| - 1)
  {
    hide Measures, Reliable, BlockPairs, TraceOk, PairsOf, Listed, Elems;
    var m := Measured([], [], 0, 0);
    l := Ledger([], []);
    var blocks := t.index.blocks;
    StartMeasures(t);
    BlockList(t);
    assert blocks[..0] == [];
    for i := 0 to |blocks|
      invariant Measures(t, l, m)
      invariant Elems(blocks[..i]) <= t.index.mined.Keys
      invariant Listed(l) == PairsOf(t, Elems(blocks[..i]))
      invariant AllReliable(t, PairsOf(t, Elems(blocks[..i])))
      invariant |l.obs| + |l.miss| == i * (|t.ids| - 1)
    {
      var b := blocks[i];
      NextBlock(t, i);
      var step;
      step, l := MeasureBlock(t, b, m, l);
      if step.Err? {
        UnreliableBlock(t, i);
        return Err(step.error), l;
      }
      m := step.value;
      assert (i + 1) * (|t.ids| - 1) == i * (|t.ids| - 1) + |t.ids| - 1;
    }
    assert blocks[..|blocks|] == blocks;
    MeasuresSizes(t, l, m);
    return Ok(m), l;
  }

  lemma MeasuresSizes(t: Trace, l: Ledger, m: Measured)
    requires Measures(t, l, m)
    ensures |m.delays| == |m.uppers| == |l.obs| && m.missing == |l.miss|
  {
  }

  lemma StartMeasures(t: Trace)
    ensures Measures(t, Ledger([], []), Measured([], [], 0, 0))
    ensures Listed(Ledger([], [])) == {}
    ensures Elems<Id>([]) == {} && PairsOf(t, {}) == {}
  {
  }

  lemma BlockList(t: Trace)
    requires TraceOk(t)
    ensures |t.index.blocks| == |t.index.mined| && |t.ids| == |t.nodes|
    ensures Elems(t.index.blocks) == t.index.mined.Keys
  {
    DistinctCard(t.index.blocks);
    DistinctCard(t.ids);
    assert |t.index.mined.Keys| == |t.index.mined| && |t.nodes.Keys| == |t.nodes|;
  }

  lemma NextBlock(t: Trace, i: nat)
    requires TraceOk(t) && i < |t.index.blocks|
    ensures t.index.blocks[i] in t.index.mined
    ensures Elems(t.index.blocks[..i + 1]) <= t.index.mined.Keys
    ensures Elems(t.index.blocks[..i]) <= t.index.mined.Keys
    ensures forall p :: p in PairsOf(t, Elems(t.index.blocks[..i])) ==> p.0 != t.index.blocks[i]
    ensures PairsOf(t, Elems(t.index.blocks[..i + 1])) ==
            PairsOf(t, Elems(t.index.blocks[..i])) + BlockPairs(t, t.index.blocks[i], t.ids)
  {
    var blocks := t.index.blocks;
    assert blocks[..i + 1] == blocks[..i] + [blocks[i]];
    forall x | x in blocks
      ensures x in t.index.mined
    {
      assert x in Elems(blocks);
    }
    forall j | 0 <= j < i
      ensures blocks[j] != blocks[i]
    {
    }
    PairsOfSnoc(t, blocks[..i], blocks[i]);
  }

  lemma UnreliableBlock(t: Trace, i: nat)
    requires TraceOk(t) && i < |t.index.blocks| && t.index.blocks[i] in t.index.mined
    requires !AllReliable(t, BlockPairs(t, t.index.blocks[i], t.ids))
    ensures !AllReliable(t, Pairs(t))
  {
    assert forall n :: n in t.ids ==> n in Elems(t.ids);
    assert BlockPairs(t, t.index.blocks[i], t.ids) <= Pairs(t);
  }

  // ---------- the report ----------

  datatype Bounds = Bounds(lower: int, upper: Option<int>)

  datatype Report = Report(
    received: nat, missing: nat, early: nat, observed: seq<int>, bounds: seq<Bounds>, clockUpper: Option<int>)

  const PERMILLES: seq<nat> := [500, 950, 990, 999]

  function Population(m: Measured): nat {
    |m.delays| + m.missing
  }

  function CensoredBounds(m: Measured, permille: nat): Bounds
    requires m.delays != [] && 1 <= permille <= 1000
  {
    RankInRange(Population(m), permille);
    var rank := Rank(Population(m), permille);
    Bounds(LowerBound(m.delays, m.missing, rank), UpperBound(m.delays, rank))
  }

  /** The full-population p99.9 with clock slack added to every observed delay. */
  function ClockUpper(m: Measured): Option<int>
    requires m.delays != []
  {
    RankInRange(Population(m), 999);
    UpperBound(m.uppers, Rank(Population(m), 999))
  }

  function ObservedQuantiles(m: Measured): seq<int>
    requires m.delays != []
  {
    [Quantile(m.delays, 500), Quantile(m.delays, 950), Quantile(m.delays, 990), Quantile(m.delays, 999)]
  }

  function AllBounds(m: Measured): seq<Bounds>
    requires m.delays != []
  {
    [CensoredBounds(m, 500), CensoredBounds(m, 950), CensoredBounds(m, 990), CensoredBounds(m, 999)]
  }

  function Summarize(m: Measured): Report
    requires m.delays != []
  {
    Report(|m.delays|, m.missing, m.early, ObservedQuantiles(m), AllBounds(m), ClockUpper(m))
  }

  lemma ShownNonNegative(t: Trace, keys: seq<Pair>)
    ensures NonNegative(Values(keys, Shown(t)))
  {
  }

  /** The lower bound never exceeds the upper one: the interval check cannot fail. */
  lemma IntervalOk(t: Trace, l: Ledger, m: Measured, permille: nat)
    requires Measures(t, l, m) && m.delays != [] && 1 <= permille <= 1000
    ensures var b := CensoredBounds(m, permille); b.upper.Some? ==> b.lower <= b.upper.value
  {
    hide Kth;
    RankInRange(Population(m), permille);
    ShownNonNegative(t, l.obs);
    BoundsSound(m.delays, Repeat(0, m.missing), Rank(Population(m), permille));
  }

  // ---------- the whole analysis ----------

  function Sources(x: Index): set<Id> {
    set b | b in x.mined :: x.mined[b].source
  }

  function ProducedTimes(x: Index): (times: seq<int>)
    requires forall b :: b in x.blocks ==> b in x.mined
    ensures |times| == |x.blocks|
  {
    seq(|x.blocks|, i requires 0 <= i < |x.blocks| => (assert x.blocks[i] in x.blocks; x.mined[x.blocks[i]].produced))
  }

  /** Enough blocks from enough miners over a long enough span. */
  predicate Enough(x: Index)
    requires forall b :: b in x.blocks ==> b in x.mined
  {
    && |x.blocks| >= MIN_BLOCKS
    && |Sources(x)| >= MIN_MINERS
    && Kth(ProducedTimes(x), |x.blocks| - 1) - Kth(ProducedTimes(x), 0) >= MIN_DURATION_NS
  }

  ghost predicate Readable(raw: seq<Node>, rows: seq<Row>) {
    NodesOk(raw) && RowsOk(NodeTable(raw), rows)
  }

  lemma ReadableFacts(raw: seq<Node>, rows: seq<Row>)
    requires Readable(raw, rows)
    ensures forall i :: 0 <= i < |rows| ==> rows[i].node in NodeTable(raw)
    ensures var x := TraceOf(raw, rows).index;
            && (forall b :: b in x.blocks ==> b in x.mined)
            && |x.blocks| == |x.mined|
            && (forall b :: b in x.mined ==> OriginOk(NodeTable(raw), x, b))
  {
    hide DistinctRows;
    forall i | 0 <= i < |rows|
      ensures rows[i].node in NodeTable(raw)
    {
      assert RowOk(NodeTable(raw), rows[i]);
    }
    IndexFacts(NodeTable(raw), rows);
    var x := TraceOf(raw, rows).index;
    assert forall b :: b in x.blocks ==> b in Elems(x.blocks);
    DistinctCard(x.blocks);
    assert |x.mined.Keys| == |x.mined|;
  }

  ghost predicate Accepts(raw: seq<Node>, rows: seq<Row>) {
    && Readable(raw, rows)
    && (ReadableFacts(raw, rows);
        var t := TraceOf(raw, rows);
        Enough(t.index) && AllOrigins(t.index) && Measurable(t))
  }

  /** Within the pair budget, no reception before its mining, and at least one reception. */
  ghost predicate Measurable(t: Trace) {
    && |t.index.mined| * (|t.nodes| - 1) <= MAX_PAIRS
    && AllReliable(t, Pairs(t))
    && exists p :: p in Pairs(t) && p in t.index.events
  }

  /** Why a trace cannot be measured. */
  ghost predicate MeasureFault(e: TraceError, t: Trace) {
    match e
    case TooManyPairs => |t.index.mined| * (|t.nodes| - 1) > MAX_PAIRS
    case PredatesMining => !AllReliable(t, Pairs(t))
    case NoReceptions => forall p :: p in Pairs(t) ==> p !in t.index.events
    case _ => false
  }

  /** Why an indexed trace is insufficient. */
  ghost predicate CoverageFault(e: TraceError, x: Index)
    requires forall b :: b in x.blocks ==> b in x.mined
  {
    match e
    case TooFewBlocks => |x.mined| < MIN_BLOCKS
    case TooFewSources => |Sources(x)| < MIN_MINERS
    case TooShort => x.blocks != [] &&
                       Kth(ProducedTimes(x), |x.blocks| - 1) - Kth(ProducedTimes(x), 0) < MIN_DURATION_NS
    case ReceivedWithoutOrigin => !AllOrigins(x)
    case _ => false
  }

  /** Why a trace is refused. */
  ghost predicate Fault(e: TraceError, raw: seq<Node>, rows: seq<Row>) {
    || NodesFault(e, raw)
    || RowsFault(e, NodeTable(raw), rows)
    || (Readable(raw, rows) &&
        (ReadableFacts(raw, rows);
         CoverageFault(e, TraceOf(raw, rows).index) || MeasureFault(e, TraceOf(raw, rows))))
  }

  /** No refusal is one of the analysis's checks on itself. */
  lemma FaultNotInternal(e: TraceError, raw: seq<Node>, rows: seq<Row>)
    requires Fault(e, raw, rows)
    ensures !Internal(e)
  {
    hide NodesOk, RowsOk, AllReliable, Pairs, IndexOf, NodeTable;
  }

  /** What an accepted analysis reports, and from which pairs. */
  ghost predicate Reported(t: Trace, l: Ledger, m: Measured, rep: Report) {
    && TraceOk(t)
    && Measures(t, l, m) && Listed(l) == Pairs(t)
    && m.delays != [] && rep == Summarize(m)
  }

  lemma SomeObserved(t: Trace, l: Ledger, m: Measured)
    requires Measures(t, l, m) && Listed(l) == Pairs(t)
    ensures m.delays != [] <==> exists p :: p in Pairs(t) && p in t.index.events
  {
    if m.delays != [] {
      assert l.obs[0] in Elems(l.obs);
      assert l.obs[0] in Listed(l);
    }
    if exists p :: p in Pairs(t) && p in t.index.events {
      var p :| p in Pairs(t) && p in t.index.events;
      assert p in Listed(l) && p !in Elems(l.miss);
      assert p in Elems(l.obs);
    }
  }

  /** Measures all pairs of a valid trace and reports on them. */
  method AnalyzeTrace(t: Trace) returns (r: Result<Report, TraceError>, ghost l: Ledger, ghost m: Measured)
    requires TraceOk(t)
    ensures r.Ok? <==> Measurable(t)
    ensures r.Ok? ==> Reported(t, l, m, r.value)
    ensures r.Err? ==> MeasureFault(r.error, t)
  {
    hide Measures, TraceOk, Kth, Pairs, AllReliable, Listed, Summarize;
    l, m := Ledger([], []), Measured([], [], 0, 0);
    var total := |t.index.mined| * (|t.nodes| - 1);
    if total > MAX_PAIRS { return Err(TooManyPairs), l, m; }
    var measured;
    measured, l := MeasureAll(t);
    if measured.Err? { return Err(measured.error), l, m; }
    m := measured.value;
    SomeObserved(t, l, m);
    if measured.value.delays == [] { return Err(NoReceptions), l, m; }
    if |measured.value.delays| + measured.value.missing != total {
      assert false;
      return Err(CoverageFailed), l, m;
    }
    r := BuildReport(t, measured.value, l);
  }

  /** Accepts exactly the readable, sufficient, fully originated and reliable traces. */
  method Analyze(raw: seq<Node>, rows: seq<Row>)
    returns (r: Result<Report, TraceError>, ghost l: Ledger, ghost m: Measured)
    ensures r.Ok? <==> Accepts(raw, rows)
    ensures r.Ok? ==>
              (forall i :: 0 <= i < |rows| ==> rows[i].node in NodeTable(raw))
              && Reported(TraceOf(raw, rows), l, m, r.value)
    ensures r.Err? ==> Fault(r.error, raw, rows) && !Internal(r.error)
  {
    hide NodesFault, RowsFault, CoverageFault, MeasureFault;
    hide NodesOk, RowsOk, NodeTable, IndexOf, TraceOk, AllOrigins, Enough, Measurable, Reported, OriginOk, Internal;
    l, m := Ledger([], []), Measured([], [], 0, 0);
    var nodes := IndexNodes(raw);
    if nodes.Err? {
      FaultNotInternal(nodes.error, raw, rows);
      return Err(nodes.error), l, m;
    }
    var index := IndexRows(nodes.value, rows);
    if index.Err? {
      FaultNotInternal(index.error, raw, rows);
      return Err(index.error), l, m;
    }
    ReadableFacts(raw, rows);
    var t := Trace(nodes.value, NodeIds(raw), index.value);
    var e := CheckCoverage(t.index, nodes.value);
    if e.Some? {
      FaultNotInternal(e.value, raw, rows);
      return Err(e.value), l, m;
    }
    TraceFacts(raw, rows);
    r, l, m := AnalyzeTrace(t);
    if r.Err? {
      FaultNotInternal(r.error, raw, rows);
    }
  }

  /** Every mined block has its mining event. */
  predicate AllMinedLogged(x: Index) {
    forall b :: b in x.mined ==>
      (b, x.mined[b].source) in x.events && x.events[(b, x.mined[b].source)].event == "mined"
  }

  lemma OriginsPresent(x: Index, nodes: map<Id, Node>)
    requires forall b :: b in x.mined ==> OriginOk(nodes, x, b)
    ensures AllMinedLogged(x)
  {
    forall b | b in x.mined
      ensures (b, x.mined[b].source) in x.events && x.events[(b, x.mined[b].source)].event == "mined"
    {
      assert OriginOk(nodes, x, b);
    }
  }

  /** The block, miner, span and origin checks after indexing. */
  method CheckCoverage(x: Index, ghost nodes: map<Id, Node>) returns (e: Option<TraceError>)
    requires (forall b :: b in x.blocks ==> b in x.mined) && |x.blocks| == |x.mined|
    requires forall b :: b in x.mined ==> OriginOk(nodes, x, b)
    ensures e.None? <==> Enough(x) && AllOrigins(x)
    ensures e.Some? ==> CoverageFault(e.value, x)
  {
    hide Kth, ProducedTimes, Sources, OriginOk, AllMinedLogged;
    if |x.mined| < MIN_BLOCKS { return Some(TooFewBlocks); }
    if |Sources(x)| < MIN_MINERS { return Some(TooFewSources); }
    var times := ProducedTimes(x);
    if Kth(times, |times| - 1) - Kth(times, 0) < MIN_DURATION_NS { return Some(TooShort); }
    OriginsPresent(x, nodes);
    if !AllMinedLogged(x) {
      assert false;
      return Some(MissingOrigin);
    }
    if exists p :: p in x.events && p.0 !in x.mined { return Some(ReceivedWithoutOrigin); }
    return None;
  }

  /** Both p99.9 bounds are finite or neither is: the rank check cannot fail. */
  lemma RanksAgree(t: Trace, l: Ledger, m: Measured)
    requires Measures(t, l, m) && m.delays != []
    ensures ClockUpper(m).Some? <==> CensoredBounds(m, 999).upper.Some?
  {
    hide Kth, Rank;
  }

  /** Sorts the samples and reads off quantiles and bounds; neither final check can fail. */
  method BuildReport(t: Trace, m: Measured, ghost l: Ledger) returns (r: Result<Report, TraceError>)
    requires Measures(t, l, m) && m.delays != []
    ensures r == Ok(Summarize(m))
  {
    hide Kth, Measures, Quantile, CensoredBounds, ClockUpper;
    var observed: seq<int>, bounds: seq<Bounds> := [], [];
    for i := 0 to |PERMILLES|
      invariant observed == ObservedQuantiles(m)[..i]
      invariant bounds == AllBounds(m)[..i]
    {
      var p := PERMILLES[i];
      var b := CensoredBounds(m, p);
      IntervalOk(t, l, m, p);
      if b.upper.Some? && b.lower > b.upper.value {
        assert false;
        return Err(InvalidInterval);
      }
      observed := observed + [Quantile(m.delays, p)];
      bounds := bounds + [b];
    }
    assert observed == ObservedQuantiles(m) && bounds == AllBounds(m);
    var clock := ClockUpper(m);
    RanksAgree(t, l, m);
    if clock.None? != bounds[3].upper.None? {
      assert false;
      return Err(RankDisagrees);
    }
    return Ok(Report(|m.delays|, m.missing, m.early, observed, bounds, clock));
  }

  // ---------- what the bounds mean ----------

  lemma ValuesConcat<K>(a: seq<K>, b: seq<K>, f: K -> int)
    ensures Values(a + b, f) == Values(a, f) + Values(b, f)
  {
  }

  /** The visited pairs list the whole population once. */
  lemma LedgerLists(t: Trace, l: Ledger, m: Measured)
    requires Measures(t, l, m) && Listed(l) == Pairs(t)
    ensures Distinct(l.obs + l.miss) && Elems(l.obs + l.miss) == Pairs(t)
  {
    var all := l.obs + l.miss;
    forall i, j | 0 <= i < j < |all|
      ensures all[i] != all[j]
    {
      if i < |l.obs| <= j {
        assert l.obs[i] in Elems(l.obs) && l.miss[j - |l.obs|] in Elems(l.miss);
      }
    }
  }

  /** Any listing of the population has the statistics of the visited order. */
  lemma PopulationStatistic(t: Trace, l: Ledger, m: Measured, all: seq<Pair>, truth: Pair -> int, k: nat)
    requires Measures(t, l, m) && Listed(l) == Pairs(t)
    requires Distinct(all) && Elems(all) == Pairs(t) && k < Population(m)
    ensures |all| == Population(m)
    ensures Kth(Values(all, truth), k) == Kth(Values(l.obs, truth) + Values(l.miss, truth), k)
  {
    hide Kth, Pairs, Distinct, Elems;
    LedgerLists(t, l, m);
    DistinctCard(all);
    DistinctCard(l.obs + l.miss);
    KthByKey(all, l.obs + l.miss, truth, k);
    ValuesConcat(l.obs, l.miss, truth);
  }

  /**
   * For every assignment of nonnegative delays to the missing pairs, the nearest-rank
   * statistic of the full population lies within the reported bounds.
   */
  lemma CensoredBoundsHold(
      t: Trace, l: Ledger, m: Measured, rep: Report, all: seq<Pair>, truth: Pair -> int, permille: nat)
    requires Reported(t, l, m, rep) && Distinct(all) && Elems(all) == Pairs(t) && 1 <= permille <= 1000
    requires forall p :: p in Pairs(t) ==>
               if p in t.index.events then truth(p) == Floor0(Delay(t, p)) else truth(p) >= 0
    ensures |all| == Population(m)
    ensures var b := CensoredBounds(m, permille);
            var v := Quantile(Values(all, truth), permille);
            b.lower <= v && (b.upper.Some? ==> v <= b.upper.value)
  {
    hide Kth, Pairs, Distinct, Measures, TraceOk, Rank, Values, Delay, Summarize;
    MeasuresSizes(t, l, m);
    RankInRange(Population(m), permille);
    var rank := Rank(Population(m), permille);
    PopulationStatistic(t, l, m, all, truth, rank - 1);
    TruthValues(t, l, m, truth);
    DelaysNonNegative(t, l, m);
    BoundsSound(m.delays, Values(l.miss, truth), rank);
  }

  lemma TruthValues(t: Trace, l: Ledger, m: Measured, truth: Pair -> int)
    requires Measures(t, l, m) && Listed(l) == Pairs(t)
    requires forall p :: p in Pairs(t) ==>
               if p in t.index.events then truth(p) == Floor0(Delay(t, p)) else truth(p) >= 0
    ensures Values(l.obs, truth) == m.delays
    ensures NonNegative(Values(l.miss, truth))
  {
    hide Pairs, Distinct, Delay;
    forall i | 0 <= i < |l.obs|
      ensures truth(l.obs[i]) == Shown(t)(l.obs[i])
    {
      assert l.obs[i] in Elems(l.obs) && l.obs[i] in Listed(l);
    }
    forall i | 0 <= i < |l.miss|
      ensures truth(l.miss[i]) >= 0
    {
      assert l.miss[i] in Elems(l.miss) && l.miss[i] in Listed(l);
    }
  }

  /**
   * If every observed delay is off by at most its clock slack, the true p99.9 of the
   * full population is at most the reported clock-aware bound.
   */
  lemma ClockBoundHolds(t: Trace, l: Ledger, m: Measured, rep: Report, all: seq<Pair>, truth: Pair -> int)
    requires Reported(t, l, m, rep) && Distinct(all) && Elems(all) == Pairs(t)
    requires forall p :: p in Pairs(t) && p in t.index.events ==>
               Delay(t, p) - Slack(t, p) <= truth(p) <= Delay(t, p) + Slack(t, p)
    requires rep.clockUpper.Some?
    ensures |all| == Population(m)
    ensures Quantile(Values(all, truth), 999) <= rep.clockUpper.value
  {
    hide Kth, Pairs, Distinct, Measures, TraceOk, Rank, Values, Delay, Slack, ObservedQuantiles, AllBounds;
    MeasuresSizes(t, l, m);
    RankInRange(Population(m), 999);
    var rank := Rank(Population(m), 999);
    PopulationStatistic(t, l, m, all, truth, rank - 1);
    TruthBelowUppers(t, l, m, truth);
    UpperSound(Values(l.obs, truth), Values(l.miss, truth), rank);
    KthPointwise(Values(l.obs, truth), m.uppers, rank - 1);
  }

  lemma TruthBelowUppers(t: Trace, l: Ledger, m: Measured, truth: Pair -> int)
    requires Measures(t, l, m) && Listed(l) == Pairs(t)
    requires forall p :: p in Pairs(t) && p in t.index.events ==>
               Delay(t, p) - Slack(t, p) <= truth(p) <= Delay(t, p) + Slack(t, p)
    ensures |m.uppers| == |l.obs|
    ensures forall i :: 0 <= i < |l.obs| ==> Values(l.obs, truth)[i] <= m.uppers[i]
  {
    hide Pairs, Distinct, Delay, Slack;
    forall i | 0 <= i < |l.obs|
      ensures truth(l.obs[i]) <= m.uppers[i]
    {
      assert l.obs[i] in Elems(l.obs) && l.obs[i] in Listed(l);
    }
  }

  /** Clock slack never lowers the bound, and both bounds are finite together. */
  lemma ClockBoundDominates(t: Trace, l: Ledger, m: Measured, rep: Report)
    requires Reported(t, l, m, rep)
    ensures rep.clockUpper.Some? <==> rep.bounds[3].upper.Some?
    ensures rep.clockUpper.Some? ==> rep.bounds[3].upper.value <= rep.clockUpper.value
  {
    hide Kth, TraceOk, Measures, Rank, Quantile, Pairs;
    MeasuresSizes(t, l, m);
    RankInRange(Population(m), 999);
    var rank := Rank(Population(m), 999);
    RanksAgree(t, l, m);
    if rank <= |m.delays| {
      DelaysBelowUppers(t, l, m);
      KthPointwise(m.delays, m.uppers, rank - 1);
    }
  }

  lemma DelaysBelowUppers(t: Trace, l: Ledger, m: Measured)
    requires TraceOk(t) && Measures(t, l, m)
    ensures |m.delays| == |m.uppers| && forall i :: 0 <= i < |m.delays| ==> m.delays[i] <= m.uppers[i]
  {
    hide Delay, Slack, TraceOk, Distinct;
    forall i | 0 <= i < |l.obs|
      ensures m.delays[i] <= m.uppers[i]
    {
      SlackNonNegative(t, l.obs[i]);
    }
  }

  lemma SlackNonNegative(t: Trace, p: Pair)
    requires TraceOk(t)
    ensures Slack(t, p) >= 0
  {
  }

  function Filled(t: Trace, v: int): Pair -> int {
    p => if p in t.index.events then Floor0(Delay(t, p)) else v
  }

  lemma FilledValues(t: Trace, l: Ledger, m: Measured, v: int)
    requires Measures(t, l, m)
    ensures Values(l.obs, Filled(t, v)) == m.delays
    ensures Values(l.miss, Filled(t, v)) == Repeat(v, m.missing)
  {
    assert forall i :: 0 <= i < |l.obs| ==> l.obs[i] in Elems(l.obs);
    assert forall i :: 0 <= i < |l.miss| ==> l.miss[i] in Elems(l.miss);
  }

  /** Both ends are attained, and a missing upper bound means every value can be exceeded. */
  lemma BoundsAttained(t: Trace, l: Ledger, m: Measured, rep: Report, all: seq<Pair>, permille: nat, v: nat)
    requires Reported(t, l, m, rep) && Distinct(all) && Elems(all) == Pairs(t) && 1 <= permille <= 1000
    ensures |all| == Population(m)
    ensures var b := CensoredBounds(m, permille);
            && Quantile(Values(all, Filled(t, 0)), permille) == b.lower
            && (b.upper.Some? ==> Quantile(Values(all, Filled(t, b.upper.value)), permille) == b.upper.value)
            && (b.upper.None? ==> Quantile(Values(all, Filled(t, v)), permille) >= v)
  {
    hide Kth, Pairs, Distinct, Filled, Measures;
    MeasuresSizes(t, l, m);
    RankInRange(Population(m), permille);
    var rank := Rank(Population(m), permille);
    PopulationStatistic(t, l, m, all, Filled(t, 0), rank - 1);
    FilledValues(t, l, m, 0);
    DelaysNonNegative(t, l, m);
    LowerTight(m.delays, m.missing, rank);
    if rank <= |m.delays| {
      var u := Kth(m.delays, rank - 1);
      PopulationStatistic(t, l, m, all, Filled(t, u), rank - 1);
      FilledValues(t, l, m, u);
      UpperTight(m.delays, m.missing, rank);
    } else {
      PopulationStatistic(t, l, m, all, Filled(t, v), rank - 1);
      FilledValues(t, l, m, v);
      UnboundedTight(m.delays, m.missing, rank, v);
    }
  }

  /** Every observed delay as late as its slack allows, every missing one `v`. */
  function Latest(t: Trace, v: int): Pair -> int {
    p => if p in t.index.events then Delay(t, p) + Slack(t, p) else v
  }

  lemma LatestValues(t: Trace, l: Ledger, m: Measured, v: int)
    requires Measures(t, l, m)
    ensures Values(l.obs, Latest(t, v)) == m.uppers
    ensures Values(l.miss, Latest(t, v)) == Repeat(v, m.missing)
  {
    hide Delay, Slack, Distinct;
    assert forall i :: 0 <= i < |l.obs| ==> l.obs[i] in Elems(l.obs);
    assert forall i :: 0 <= i < |l.miss| ==> l.miss[i] in Elems(l.miss);
  }

  /** These delays are within the slack. */
  lemma LatestWithinSlack(t: Trace, v: int, p: Pair)
    requires TraceOk(t) && p in t.index.events
    ensures Delay(t, p) - Slack(t, p) <= Latest(t, v)(p) <= Delay(t, p) + Slack(t, p)
  {
    SlackNonNegative(t, p);
    hide Delay, Slack;
  }

  /** The clock-aware bound is attained within the slack, and without one every value can be exceeded. */
  lemma ClockBoundAttained(t: Trace, l: Ledger, m: Measured, rep: Report, all: seq<Pair>, v: int)
    requires Reported(t, l, m, rep) && Distinct(all) && Elems(all) == Pairs(t)
    ensures |all| == Population(m)
    ensures rep.clockUpper.Some? ==>
              Quantile(Values(all, Latest(t, rep.clockUpper.value)), 999) == rep.clockUpper.value
    ensures rep.clockUpper.None? ==> Quantile(Values(all, Latest(t, v)), 999) >= v
  {
    hide Kth, Pairs, Distinct, Latest, Measures, TraceOk, Delay, Slack, Rank, ObservedQuantiles, AllBounds;
    MeasuresSizes(t, l, m);
    RankInRange(Population(m), 999);
    var rank := Rank(Population(m), 999);
    var u := if rep.clockUpper.Some? then rep.clockUpper.value else v;
    PopulationStatistic(t, l, m, all, Latest(t, u), rank - 1);
    LatestValues(t, l, m, u);
    if rank <= |m.uppers| {
      UpperTight(m.uppers, m.missing, rank);
    } else {
      UnboundedTight(m.uppers, m.missing, rank, v);
    }
  }

  lemma DelaysNonNegative(t: Trace, l: Ledger, m: Measured)
    requires Measures(t, l, m)
    ensures NonNegative(m.delays)
  {
    ShownNonNegative(t, l.obs);
  }
}
