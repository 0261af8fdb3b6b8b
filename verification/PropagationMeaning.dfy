/** The report in terms of the rows and pairs themselves: delays, counts, quantiles and bounds. */
module PropagationMeaning {
  import opened Ids
  import opened OrderStatistics
  import opened Propagation
  import opened PropagationEvidence

  // ---------- acceptance ----------

  /** What acceptance promises, with the limits written out. */
  lemma AcceptsMeans(raw: seq<Node>, rows: seq<Row>, i: nat, x: nat)
    requires Accepts(raw, rows) && i < |rows| && x < |raw|
    ensures 25 <= |raw| <= 512 && |rows| <= 200_000 && |Miners(raw)| >= 16
    ensures -10_000_000_000 <= raw[x].offset <= 10_000_000_000 && 0 <= raw[x].uncertainty <= 5_000_000
    ensures rows[i].event in ["mined", "received"] && rows[i].wall > 0
    ensures rows[i].event == "mined" ==> rows[i].node in Miners(raw)
    ensures exists j :: 0 <= j < |rows| && rows[j].event == "mined" && rows[j].block == rows[i].block
    ensures forall j :: 0 <= j < |rows| && j != i && rows[j].block == rows[i].block ==>
              rows[j].node != rows[i].node && (rows[i].event == "mined" ==> rows[j].event == "received")
  {
    var nodes := NodeTable(raw);
    assert NodesOk(raw) && RowsOk(nodes, rows);
    assert NodeOk(raw[x]) && RowOk(nodes, rows[i]);
    NodeTableKeys(raw, rows[i].node);
    OnceOnly(nodes, rows, i);
    MinedSomewhere(raw, rows, i);
  }

  lemma OnceOnly(nodes: map<Id, Node>, rows: seq<Row>, i: nat)
    requires RowsOk(nodes, rows) && i < |rows|
    ensures forall j :: 0 <= j < |rows| && j != i && rows[j].block == rows[i].block ==>
              rows[j].node != rows[i].node && (rows[i].event == "mined" ==> rows[j].event == "received")
  {
    forall j | 0 <= j < |rows| && j != i && rows[j].block == rows[i].block
      ensures rows[j].node != rows[i].node && (rows[i].event == "mined" ==> rows[j].event == "received")
    {
      var lo, hi := if i < j then i else j, if i < j then j else i;
      assert Key(rows[lo]) != Key(rows[hi]);
      assert rows[lo].event != "mined" || rows[hi].event != "mined";
      assert RowOk(nodes, rows[j]);
    }
  }

  lemma MinedSomewhere(raw: seq<Node>, rows: seq<Row>, i: nat)
    requires Accepts(raw, rows) && i < |rows|
    ensures exists j :: 0 <= j < |rows| && rows[j].event == "mined" && rows[j].block == rows[i].block
  {
    ReadableFacts(raw, rows);
    var t := TraceOf(raw, rows);
    IndexFacts(t.nodes, rows);
    hide NodeTable, IndexOf, NodesOk, RowsOk, Measurable, Enough;
    assert rows[i] in rows;
    assert Key(rows[i]) in t.index.events;
    assert OriginOk(t.nodes, t.index, rows[i].block);
    var row := t.index.events[(rows[i].block, t.index.mined[rows[i].block].source)];
    var j :| 0 <= j < |rows| && rows[j] == row;
  }

  // ---------- sufficiency ----------

  ghost function MinedBlocks(rows: seq<Row>): set<Id> {
    set r | r in rows && r.event == "mined" :: r.block
  }

  ghost function MinedBy(rows: seq<Row>): set<Id> {
    set r | r in rows && r.event == "mined" :: r.node
  }

  /** Two mined rows a minute apart on the calibrated clocks. */
  ghost predicate MinuteApart(nodes: map<Id, Node>, a: Row, b: Row) {
    && a.event == "mined" && b.event == "mined" && a.node in nodes && b.node in nodes
    && (b.wall - nodes[b.node].offset) - (a.wall - nodes[a.node].offset) >= 60_000_000_000
  }

  /** The row that mined a block. */
  ghost function MinedRow(nodes: map<Id, Node>, rows: seq<Row>, x: Index, b: Id): (r: Row)
    requires Indexed(nodes, rows, x) && b in x.mined
    ensures r in rows && r.event == "mined" && r.block == b && r.node == x.mined[b].source && r.node in nodes
    ensures x.mined[b].produced == r.wall - nodes[r.node].offset
  {
    assert OriginOk(nodes, x, b);
    x.events[(b, x.mined[b].source)]
  }

  lemma MinedKeys(nodes: map<Id, Node>, rows: seq<Row>, x: Index)
    requires Indexed(nodes, rows, x)
    ensures x.mined.Keys == MinedBlocks(rows) && |x.blocks| == |MinedBlocks(rows)|
    ensures forall b :: b in x.blocks <==> b in x.mined
  {
    DistinctCard(x.blocks);
    assert forall b :: b in x.blocks <==> b in Elems(x.blocks);
    hide OriginOk, Distinct;
    forall b | b in x.mined
      ensures b in MinedBlocks(rows)
    {
      var r := MinedRow(nodes, rows, x, b);
    }
  }

  lemma MinedSources(nodes: map<Id, Node>, rows: seq<Row>, x: Index)
    requires Indexed(nodes, rows, x)
    ensures Sources(x) == MinedBy(rows)
  {
    hide OriginOk, Distinct;
    forall n | n in Sources(x)
      ensures n in MinedBy(rows)
    {
      var b :| b in x.mined && x.mined[b].source == n;
      var r := MinedRow(nodes, rows, x, b);
    }
    forall n | n in MinedBy(rows)
      ensures n in Sources(x)
    {
      var r :| r in rows && r.event == "mined" && r.node == n;
      assert x.mined[r.block].source == n;
    }
  }

  ghost predicate FarApart(x: Index) {
    exists b, c :: b in x.mined && c in x.mined && x.mined[c].produced - x.mined[b].produced >= MIN_DURATION_NS
  }

  lemma MinedSpan(nodes: map<Id, Node>, rows: seq<Row>, x: Index)
    requires Indexed(nodes, rows, x)
    ensures FarApart(x) <==> exists a, b :: a in rows && b in rows && MinuteApart(nodes, a, b)
  {
    hide OriginOk, Distinct;
    if FarApart(x) {
      var b, c :| b in x.mined && c in x.mined && x.mined[c].produced - x.mined[b].produced >= MIN_DURATION_NS;
      assert MinuteApart(nodes, MinedRow(nodes, rows, x, b), MinedRow(nodes, rows, x, c));
    }
    if a, b :| a in rows && b in rows && MinuteApart(nodes, a, b) {
      assert MinedRow(nodes, rows, x, a.block) == a && MinedRow(nodes, rows, x, b.block) == b;
    }
  }

  /** At least 120 blocks by at least 16 miners, mined over at least a minute. */
  lemma EnoughExact(raw: seq<Node>, rows: seq<Row>)
    requires Readable(raw, rows)
    ensures forall i :: 0 <= i < |rows| ==> rows[i].node in NodeTable(raw)
    ensures forall b :: b in TraceOf(raw, rows).index.blocks ==> b in TraceOf(raw, rows).index.mined
    ensures Enough(TraceOf(raw, rows).index) <==>
            && |MinedBlocks(rows)| >= 120 && |MinedBy(rows)| >= 16
            && exists a, b :: a in rows && b in rows && MinuteApart(NodeTable(raw), a, b)
  {
    ReadableFacts(raw, rows);
    var t := TraceOf(raw, rows);
    IndexFacts(t.nodes, rows);
    hide NodeTable, IndexOf, NodesOk, RowsOk, Enough, Sources, MinedBlocks, MinedBy, Indexed, OriginOk, MinuteApart;
    MinedKeys(t.nodes, rows, t.index);
    MinedSources(t.nodes, rows, t.index);
    MinedSpan(t.nodes, rows, t.index);
    SpanExact(t.index);
  }

  // ---------- delays from rows ----------

  lemma NodeAt(raw: seq<Node>, x: nat)
    requires DistinctNodes(raw) && x < |raw|
    ensures raw[x].id in NodeTable(raw) && NodeTable(raw)[raw[x].id] == raw[x]
  {
    NodeTableKeys(raw, raw[x].id);
    assert NodeIds(raw)[x] == raw[x].id;
    var n := NodeTable(raw)[raw[x].id];
    var y :| 0 <= y < |raw| && raw[y] == n;
    assert raw[y].id == raw[x].id;
  }

  /** Where a reception row and the mining row of its block stand in the index. */
  lemma RowsIndexed(raw: seq<Node>, rows: seq<Row>, i: nat, j: nat)
    requires Readable(raw, rows) && i < |rows| && j < |rows|
    requires rows[j].event == "mined" && rows[i].block == rows[j].block
    ensures forall k :: 0 <= k < |rows| ==> rows[k].node in NodeTable(raw)
    ensures var t := TraceOf(raw, rows);
            && Key(rows[i]) in t.index.events && t.index.events[Key(rows[i])] == rows[i]
            && rows[i].block in t.index.mined && t.index.mined[rows[i].block].source == rows[j].node
            && t.index.mined[rows[i].block].produced == rows[j].wall - t.nodes[rows[j].node].offset
            && rows[i].node in t.nodes && rows[j].node in t.nodes
  {
    ReadableFacts(raw, rows);
    var t := TraceOf(raw, rows);
    IndexFacts(t.nodes, rows);
    hide NodeTable, IndexOf, NodesOk, RowsOk;
    assert rows[i] in rows && rows[j] in rows;
    assert OriginOk(t.nodes, t.index, rows[i].block);
    assert t.index.events[Key(rows[j])] == rows[j];
  }

  /**
   * The delay of a reception is the difference of its and the miner's clock
   * readings, each less its node's offset; its slack is both uncertainties.
   */
  lemma DelayExact(raw: seq<Node>, rows: seq<Row>, i: nat, j: nat, x: nat, y: nat)
    requires Readable(raw, rows) && i < |rows| && j < |rows| && x < |raw| && y < |raw|
    requires rows[j].event == "mined" && rows[i].block == rows[j].block
    requires raw[x].id == rows[i].node && raw[y].id == rows[j].node
    ensures forall k :: 0 <= k < |rows| ==> rows[k].node in NodeTable(raw)
    ensures var t := TraceOf(raw, rows);
            && Delay(t, Key(rows[i])) == (rows[i].wall - raw[x].offset) - (rows[j].wall - raw[y].offset)
            && Slack(t, Key(rows[i])) == raw[x].uncertainty + raw[y].uncertainty
  {
    RowsIndexed(raw, rows, i, j);
    NodeAt(raw, x);
    NodeAt(raw, y);
    hide NodeTable, IndexOf, RowsOk;
  }

  /** A reception is reliable unless it surely precedes the mining of its block. */
  lemma ReliableExact(raw: seq<Node>, rows: seq<Row>, i: nat, j: nat, x: nat, y: nat)
    requires Readable(raw, rows) && i < |rows| && j < |rows| && x < |raw| && y < |raw|
    requires rows[j].event == "mined" && rows[i].block == rows[j].block
    requires raw[x].id == rows[i].node && raw[y].id == rows[j].node
    ensures forall k :: 0 <= k < |rows| ==> rows[k].node in NodeTable(raw)
    ensures Reliable(TraceOf(raw, rows), Key(rows[i])) <==>
            rows[i].wall - raw[x].offset + raw[x].uncertainty >= rows[j].wall - raw[y].offset - raw[y].uncertainty
  {
    RowsIndexed(raw, rows, i, j);
    DelayExact(raw, rows, i, j, x, y);
    hide NodeTable, IndexOf, RowsOk, NodesOk, Delay, Slack;
  }

  // ---------- spans ----------

  /** A long enough span means two mined blocks that far apart. */
  lemma SpanExact(x: Index)
    requires (forall b :: b in x.blocks ==> b in x.mined) && (forall b :: b in x.mined ==> b in x.blocks)
    ensures Enough(x) <==>
            && |x.blocks| >= MIN_BLOCKS
            && |Sources(x)| >= MIN_MINERS
            && exists b, c :: b in x.mined && c in x.mined &&
                              x.mined[c].produced - x.mined[b].produced >= MIN_DURATION_NS
  {
    var times := ProducedTimes(x);
    if times != [] {
      var n := |times| - 1;
      hide Kth, Sources;
      KthMember(times, 0);
      KthMember(times, n);
      var i :| 0 <= i < |times| && times[i] == Kth(times, 0);
      var j :| 0 <= j < |times| && times[j] == Kth(times, n);
      assert x.blocks[i] in x.mined && x.blocks[j] in x.mined;
      forall b | b in x.mined
        ensures Kth(times, 0) <= x.mined[b].produced <= Kth(times, n)
      {
        var k :| 0 <= k < |x.blocks| && x.blocks[k] == b;
        KthBetween(times, k);
      }
    }
  }

  lemma KthMember(s: seq<int>, k: nat)
    requires k < |s|
    ensures Kth(s, k) in s
  {
    var v := Kth(s, k);
    KthLe(s, k, v);
    KthLe(s, k, v - 1);
    hide Kth;
    if v !in s {
      SameCount(s, v);
      assert false;
    }
  }

  lemma {:induction false} SameCount(s: seq<int>, v: int)
    requires v !in s
    ensures CountLe(s, v) == CountLe(s, v - 1)
  {
    if s != [] {
      SameCount(s[1..], v);
      assert s[0] in s;
    }
  }

  lemma KthBetween(s: seq<int>, i: nat)
    requires i < |s|
    ensures Kth(s, 0) <= s[i] <= Kth(s, |s| - 1)
  {
    var top := Kth(s, |s| - 1);
    KthLe(s, 0, s[i]);
    CountAt(s, i, s[i]);
    KthLe(s, |s| - 1, top);
    hide Kth;
    if s[i] > top {
      CountMissing(s, i, top);
      assert false;
    }
  }

  lemma {:induction false} CountAt(s: seq<int>, i: nat, x: int)
    requires i < |s| && s[i] <= x
    ensures CountLe(s, x) > 0
  {
    if i > 0 {
      CountAt(s[1..], i - 1, x);
    }
  }

  lemma {:induction false} CountMissing(s: seq<int>, i: nat, x: int)
    requires i < |s| && s[i] > x
    ensures CountLe(s, x) < |s|
  {
    if i > 0 {
      CountMissing(s[1..], i - 1, x);
    }
  }

  // ---------- the report over pairs ----------

  ghost function Seen(t: Trace): set<Pair> {
    set p | p in Pairs(t) && p in t.index.events
  }

  ghost function AtMost(s: set<Pair>, f: Pair -> int, x: int): set<Pair> {
    set p | p in s && f(p) <= x
  }

  /** `q` is the least value that at least the given share of the pairs does not exceed. */
  ghost predicate PairQuantile(s: set<Pair>, f: Pair -> int, permille: nat, q: int) {
    1000 * |AtMost(s, f, q)| >= |s| * permille && 1000 * |AtMost(s, f, q - 1)| < |s| * permille
  }

  lemma ListQuantile(keys: seq<Pair>, f: Pair -> int, permille: nat, q: int)
    requires Distinct(keys)
    ensures PairQuantile(Elems(keys), f, permille, q) <==> IsQuantile(Values(keys, f), permille, q)
  {
    CountByKey(keys, f, q);
    CountByKey(keys, f, q - 1);
    DistinctCard(keys);
    assert AtMost(Elems(keys), f, q) == KeysBelow(Elems(keys), f, q);
    assert AtMost(Elems(keys), f, q - 1) == KeysBelow(Elems(keys), f, q - 1);
  }

  lemma SeenIs(t: Trace, l: Ledger, m: Measured)
    requires Measures(t, l, m) && Listed(l) == Pairs(t)
    ensures Elems(l.obs) == Seen(t) && Elems(l.miss) == Pairs(t) - Seen(t)
    ensures |Seen(t)| == |l.obs| == |m.delays| && |Pairs(t) - Seen(t)| == m.missing
  {
    hide Pairs, Distinct;
    assert Elems(l.obs) == Seen(t);
    assert Elems(l.miss) == Pairs(t) - Seen(t);
    DistinctCard(l.obs);
    DistinctCard(l.miss);
  }

  /** Received, missing and early receptions are counted over the pairs. */
  lemma CountsExact(t: Trace, l: Ledger, m: Measured, rep: Report)
    requires Reported(t, l, m, rep)
    ensures rep.received == |Seen(t)| && rep.missing == |Pairs(t) - Seen(t)|
    ensures rep.early == |set p | p in Seen(t) && Delay(t, p) < 0|
  {
    hide Pairs, Distinct, Delay, ObservedQuantiles, AllBounds, ClockUpper, TraceOk;
    SeenIs(t, l, m);
    CountByKey(l.obs, Raw(t), -1);
    assert KeysBelow(Elems(l.obs), Raw(t), -1) == set p | p in Seen(t) && Delay(t, p) < 0;
  }

  /** The four reported shares. */
  predicate Share(i: nat, permille: nat) {
    (i == 0 && permille == 500) || (i == 1 && permille == 950) || (i == 2 && permille == 990)
    || (i == 3 && permille == 999)
  }

  /** Each observed statistic is the quantile of the received delays, negative ones counted as zero. */
  lemma ObservedExact(t: Trace, l: Ledger, m: Measured, rep: Report, i: nat, permille: nat)
    requires Reported(t, l, m, rep) && Share(i, permille)
    ensures i < |rep.observed|
    ensures PairQuantile(Seen(t), p => if Delay(t, p) < 0 then 0 else Delay(t, p), permille, rep.observed[i])
  {
    hide Pairs, Distinct, Delay, TraceOk, AllBounds, ClockUpper, Kth, Rank;
    SeenIs(t, l, m);
    QuantileExact(m.delays, permille);
    var f := p => if Delay(t, p) < 0 then 0 else Delay(t, p);
    assert Values(l.obs, f) == Values(l.obs, Shown(t));
    ListQuantile(l.obs, f, permille, rep.observed[i]);
  }

  /** Whatever the missing delays are, the quantile over all pairs lies within the reported bounds. */
  lemma BoundsExact(t: Trace, l: Ledger, m: Measured, rep: Report, truth: Pair -> int, i: nat, permille: nat, v: int)
    requires Reported(t, l, m, rep) && Share(i, permille)
    requires forall p :: p in Pairs(t) ==>
               if p in t.index.events then truth(p) == Floor0(Delay(t, p)) else truth(p) >= 0
    requires PairQuantile(Pairs(t), truth, permille, v)
    ensures i < |rep.bounds| && rep.bounds[i].lower <= v
    ensures rep.bounds[i].upper.Some? ==> v <= rep.bounds[i].upper.value
  {
    hide Pairs, Distinct, Delay, TraceOk, Kth, Rank, Measures, CensoredBounds, Quantile, ClockUpper, ObservedQuantiles;
    LedgerLists(t, l, m);
    var all := l.obs + l.miss;
    ListQuantile(all, truth, permille, v);
    CensoredBoundsHold(t, l, m, rep, all, truth, permille);
    MeasuresSizes(t, l, m);
    QuantileExact(Values(all, truth), permille);
    QuantileUnique(Values(all, truth), permille, v, Quantile(Values(all, truth), permille));
  }

  /** True delays within the slack have their p99.9 over all pairs at most the clock-aware bound. */
  lemma ClockExact(t: Trace, l: Ledger, m: Measured, rep: Report, truth: Pair -> int, v: int)
    requires Reported(t, l, m, rep) && rep.clockUpper.Some?
    requires forall p :: p in Pairs(t) && p in t.index.events ==>
               Delay(t, p) - Slack(t, p) <= truth(p) <= Delay(t, p) + Slack(t, p)
    requires PairQuantile(Pairs(t), truth, 999, v)
    ensures v <= rep.clockUpper.value
  {
    hide Pairs, Distinct, Delay, Slack, TraceOk, Kth, Rank, Measures;
    hide AllBounds, Quantile, ClockUpper, ObservedQuantiles;
    LedgerLists(t, l, m);
    var all := l.obs + l.miss;
    ListQuantile(all, truth, 999, v);
    ClockBoundHolds(t, l, m, rep, all, truth);
    MeasuresSizes(t, l, m);
    QuantileExact(Values(all, truth), 999);
    QuantileUnique(Values(all, truth), 999, v, Quantile(Values(all, truth), 999));
  }
}
