/** First-seen propagation traces: indexing, pair accounting and censored quantile bounds. */
module Propagation {
  import opened Ids
  import opened HeaderBytes

  const MIN_NODES := 25
  const MAX_NODES := 512
  const MIN_MINERS := 16
  const MIN_BLOCKS := 120
  const MIN_DURATION_NS: int := 60_000_000_000
  const MAX_OFFSET_NS: int := 10_000_000_000
  const MAX_CLOCK_UNCERTAINTY_NS: int := 5_000_000
  const MAX_TRACE_ROWS: int := 200_000
  const MAX_PAIRS: int := 1_000_000

  datatype Node = Node(id: Id, host: Id, miner: bool, offset: int, uncertainty: int)

  datatype Row = Row(block: Id, node: Id, event: string, wall: int)

  /** A block and a receiving node. */
  type Pair = (Id, Id)

  datatype Origin = Origin(source: Id, produced: int)

  datatype TraceError =
    | BadNodeCount | BadNode | DuplicateNode | TooFewMiners | TooManyRows | BadRow
    | DuplicateEvent | BadMiner | TooFewBlocks | TooFewSources | TooShort | MissingOrigin
    | ReceivedWithoutOrigin | TooManyPairs | NotReceived | PredatesMining | NoReceptions
    | CoverageFailed | InvalidInterval | RankDisagrees

  /** Checks the analysis repeats on its own results. */
  predicate Internal(e: TraceError) {
    e.MissingOrigin? || e.NotReceived? || e.CoverageFailed? || e.InvalidInterval? || e.RankDisagrees?
  }

  // ---------- nodes ----------

  predicate NameOk(s: string) {
    1 <= |s| <= 64 && forall i :: 0 <= i < |s| ==>
      ('A' <= s[i] <= 'Z' || 'a' <= s[i] <= 'z' || '0' <= s[i] <= '9' || s[i] in "_.-")
  }

  predicate NodeOk(n: Node) {
    && NameOk(n.id) && NameOk(n.host)
    && -MAX_OFFSET_NS <= n.offset <= MAX_OFFSET_NS
    && 0 <= n.uncertainty <= MAX_CLOCK_UNCERTAINTY_NS
  }

  ghost predicate DistinctNodes(raw: seq<Node>) {
    forall i, j :: 0 <= i < j < |raw| ==> raw[i].id != raw[j].id && raw[i].host != raw[j].host
  }

  function NodeTable(raw: seq<Node>): map<Id, Node> {
    if raw == [] then map[] else NodeTable(raw[..|raw| - 1])[raw[|raw| - 1].id := raw[|raw| - 1]]
  }

  function NodeIds(raw: seq<Node>): (ids: seq<Id>)
    ensures |ids| == |raw| && forall i :: 0 <= i < |raw| ==> ids[i] == raw[i].id
  {
    seq(|raw|, i requires 0 <= i < |raw| => raw[i].id)
  }

  function Hosts(raw: seq<Node>): set<Id> {
    set n | n in raw :: n.host
  }

  function Miners(raw: seq<Node>): set<Id> {
    set n | n in raw && n.miner :: n.id
  }

  ghost predicate NodesOk(raw: seq<Node>) {
    && MIN_NODES <= |raw| <= MAX_NODES
    && (forall i :: 0 <= i < |raw| ==> NodeOk(raw[i]))
    && DistinctNodes(raw)
    && |Miners(raw)| >= MIN_MINERS
  }

  /** Why a node list is refused. */
  ghost predicate NodesFault(e: TraceError, raw: seq<Node>) {
    match e
    case BadNodeCount => !(MIN_NODES <= |raw| <= MAX_NODES)
    case BadNode => exists i :: 0 <= i < |raw| && !NodeOk(raw[i])
    case DuplicateNode => !DistinctNodes(raw)
    case TooFewMiners => |Miners(raw)| < MIN_MINERS
    case _ => false
  }

  lemma {:induction false} NodeTableKeys(raw: seq<Node>, n: Id)
    ensures n in NodeTable(raw) <==> n in NodeIds(raw)
    ensures n in NodeTable(raw) ==> NodeTable(raw)[n] in raw && NodeTable(raw)[n].id == n
  {
    if raw != [] {
      var d := raw[..|raw| - 1];
      NodeTableKeys(d, n);
      assert NodeIds(raw) == NodeIds(d) + [raw[|raw| - 1].id];
    }
  }

  method IndexNodes(raw: seq<Node>) returns (r: Result<map<Id, Node>, TraceError>)
    ensures r.Ok? <==> NodesOk(raw)
    ensures r.Err? ==> NodesFault(r.error, raw)
    ensures r.Ok? ==> r.value == NodeTable(raw)
  {
    hide NodeOk, NodeTable, DistinctNodes, Hosts, Miners, NodeIds;
    if !(MIN_NODES <= |raw| <= MAX_NODES) { return Err(BadNodeCount); }
    var nodes: map<Id, Node> := map[];
    var hosts: set<Id>, miners: set<Id> := {}, {};
    NoNodes();
    for i := 0 to |raw|
      invariant forall j :: 0 <= j < i ==> NodeOk(raw[j])
      invariant DistinctNodes(raw[..i])
      invariant nodes == NodeTable(raw[..i]) && hosts == Hosts(raw[..i]) && miners == Miners(raw[..i])
    {
      var n := raw[i];
      if !NodeOk(n) { return Err(BadNode); }
      NodeTableKeys(raw[..i], n.id);
      if n.id in nodes || n.host in hosts {
        DuplicateFound(raw, i);
        return Err(DuplicateNode);
      }
      assert raw[..i + 1] == raw[..i] + [n];
      NodesSnoc(raw[..i], n);
      nodes := nodes[n.id := n];
      hosts := hosts + {n.host};
      if n.miner {
        miners := miners + {n.id};
      }
    }
    assert raw[..|raw|] == raw;
    if |miners| < MIN_MINERS { return Err(TooFewMiners); }
    return Ok(nodes);
  }

  lemma NoNodes()
    ensures NodeTable([]) == map[] && Hosts([]) == {} && Miners([]) == {} && DistinctNodes([])
  {
  }

  lemma DuplicateFound(raw: seq<Node>, i: nat)
    requires i < |raw|
    requires raw[i].id in NodeIds(raw[..i]) || raw[i].host in Hosts(raw[..i])
    ensures !DistinctNodes(raw)
  {
    if raw[i].id in NodeIds(raw[..i]) {
      var j :| 0 <= j < i && NodeIds(raw[..i])[j] == raw[i].id;
      assert raw[j].id == raw[i].id;
    } else {
      var n :| n in raw[..i] && n.host == raw[i].host;
      var j :| 0 <= j < i && raw[j] == n;
      assert raw[j].host == raw[i].host;
    }
  }

  lemma NodesSnoc(raw: seq<Node>, n: Node)
    requires DistinctNodes(raw) && n.id !in NodeIds(raw) && n.host !in Hosts(raw)
    ensures DistinctNodes(raw + [n])
    ensures NodeTable(raw + [n]) == NodeTable(raw)[n.id := n]
    ensures Hosts(raw + [n]) == Hosts(raw) + {n.host}
    ensures Miners(raw + [n]) == Miners(raw) + (if n.miner then {n.id} else {})
  {
    var all := raw + [n];
    assert all[..|raw|] == raw;
    forall i | 0 <= i < |raw|
      ensures raw[i].id != n.id && raw[i].host != n.host
    {
      assert NodeIds(raw)[i] == raw[i].id && raw[i] in raw;
    }
  }

  // ---------- rows ----------

  predicate RowOk(nodes: map<Id, Node>, row: Row) {
    && HexRoot(row.block) && row.node in nodes
    && (row.event == "mined" || row.event == "received")
    && row.wall > 0
    && (row.event == "mined" ==> nodes[row.node].miner)
  }

  function Key(row: Row): Pair {
    (row.block, row.node)
  }

  ghost predicate RepeatedEvent(rows: seq<Row>) {
    exists i, j :: 0 <= i < j < |rows| && Key(rows[i]) == Key(rows[j])
  }

  ghost predicate MinedTwice(rows: seq<Row>) {
    exists i, j :: 0 <= i < j < |rows| && rows[i].event == "mined" && rows[j].event == "mined" &&
                   rows[i].block == rows[j].block
  }

  ghost predicate DistinctRows(rows: seq<Row>) {
    !RepeatedEvent(rows) && !MinedTwice(rows)
  }

  ghost predicate RowsOk(nodes: map<Id, Node>, rows: seq<Row>) {
    && |rows| <= MAX_TRACE_ROWS
    && (forall i :: 0 <= i < |rows| ==> RowOk(nodes, rows[i]))
    && DistinctRows(rows)
  }

  /** Why rows are refused. */
  ghost predicate RowsFault(e: TraceError, nodes: map<Id, Node>, rows: seq<Row>) {
    match e
    case TooManyRows => |rows| > MAX_TRACE_ROWS
    case BadRow => exists i :: 0 <= i < |rows| && !RowOk(nodes, rows[i])
    case DuplicateEvent => RepeatedEvent(rows)
    case BadMiner => MinedTwice(rows)
    case _ => false
  }

  /** The three indexes the rows fill, in order. */
  datatype Index = Index(events: map<Pair, Row>, mined: map<Id, Origin>, blocks: seq<Id>)

  function AddRow(nodes: map<Id, Node>, x: Index, row: Row): Index
    requires row.node in nodes
  {
    var events := x.events[Key(row) := row];
    if row.event == "mined" then
      Index(events, x.mined[row.block := Origin(row.node, row.wall - nodes[row.node].offset)], x.blocks + [row.block])
    else x.(events := events)
  }

  function IndexOf(nodes: map<Id, Node>, rows: seq<Row>): Index
    requires forall i :: 0 <= i < |rows| ==> rows[i].node in nodes
  {
    if rows == [] then Index(map[], map[], [])
    else AddRow(nodes, IndexOf(nodes, rows[..|rows| - 1]), rows[|rows| - 1])
  }

  /** Every indexed event comes from a row, and every row is indexed. */
  ghost predicate EventsIndexed(rows: seq<Row>, events: map<Pair, Row>) {
    && (forall p :: p in events ==> events[p] in rows && Key(events[p]) == p)
    && (forall row :: row in rows ==> Key(row) in events && events[Key(row)] == row)
  }

  /** `b` was mined where and when its mined event says. */
  ghost predicate OriginOk(nodes: map<Id, Node>, x: Index, b: Id)
    requires b in x.mined
  {
    var o := x.mined[b];
    && o.source in nodes
    && (b, o.source) in x.events && x.events[(b, o.source)].event == "mined"
    && o.produced == x.events[(b, o.source)].wall - nodes[o.source].offset
  }

  ghost predicate OriginsIndexed(nodes: map<Id, Node>, rows: seq<Row>, x: Index) {
    && (forall b :: b in x.mined ==> OriginOk(nodes, x, b))
    && (forall row :: row in rows && row.event == "mined" ==>
          row.block in x.mined && x.mined[row.block].source == row.node)
    && Distinct(x.blocks) && Elems(x.blocks) == x.mined.Keys
  }

  ghost predicate Indexed(nodes: map<Id, Node>, rows: seq<Row>, x: Index) {
    EventsIndexed(rows, x.events) && OriginsIndexed(nodes, rows, x)
  }

  lemma {:induction false} IndexFacts(nodes: map<Id, Node>, rows: seq<Row>)
    requires (forall i :: 0 <= i < |rows| ==> rows[i].node in nodes) && DistinctRows(rows)
    ensures Indexed(nodes, rows, IndexOf(nodes, rows))
  {
    if rows != [] {
      var d, row := rows[..|rows| - 1], rows[|rows| - 1];
      assert rows == d + [row];
      IndexFacts(nodes, d);
      RowIsNew(d, row);
      IndexStep(nodes, d, row, IndexOf(nodes, d));
    }
  }

  lemma RowIsNew(d: seq<Row>, row: Row)
    requires DistinctRows(d + [row])
    ensures forall r :: r in d ==> Key(r) != Key(row)
    ensures row.event == "mined" ==> forall r :: r in d && r.event == "mined" ==> r.block != row.block
  {
    var all := d + [row];
    forall r | r in d
      ensures Key(r) != Key(row)
      ensures row.event == "mined" && r.event == "mined" ==> r.block != row.block
    {
      var i :| 0 <= i < |d| && d[i] == r;
      assert all[i] == r && all[|d|] == row;
    }
  }

  lemma MinedHasRow(nodes: map<Id, Node>, d: seq<Row>, x: Index, b: Id)
    requires Indexed(nodes, d, x) && b in x.mined
    ensures exists r :: r in d && r.event == "mined" && r.block == b
  {
    assert OriginOk(nodes, x, b);
    assert x.events[(b, x.mined[b].source)] in d;
  }

  lemma EventStep(d: seq<Row>, row: Row, events: map<Pair, Row>)
    requires EventsIndexed(d, events) && forall r :: r in d ==> Key(r) != Key(row)
    ensures Key(row) !in events && EventsIndexed(d + [row], events[Key(row) := row])
  {
  }

  lemma IndexStep(nodes: map<Id, Node>, d: seq<Row>, row: Row, x: Index)
    requires Indexed(nodes, d, x) && row.node in nodes
    requires forall r :: r in d ==> Key(r) != Key(row)
    requires row.event == "mined" ==> forall r :: r in d && r.event == "mined" ==> r.block != row.block
    ensures Indexed(nodes, d + [row], AddRow(nodes, x, row))
  {
    var x' := AddRow(nodes, x, row);
    EventStep(d, row, x.events);
    hide Distinct, Elems, EventsIndexed;
    if row.event == "mined" {
      if row.block in x.mined {
        MinedHasRow(nodes, d, x, row.block);
        assert false;
      }
      SnocDistinct(x.blocks, row.block);
      ElemsSnoc(x.blocks, row.block);
    }
    forall b | b in x'.mined
      ensures OriginOk(nodes, x', b)
    {
      if b in x.mined {
        assert OriginOk(nodes, x, b);
      }
    }
  }

  lemma SnocDistinct<T>(q: seq<T>, x: T)
    requires Distinct(q) && x !in Elems(q)
    ensures Distinct(q + [x])
  {
    forall i | 0 <= i < |q|
      ensures q[i] != x
    {
      assert q[i] in Elems(q);
    }
  }

  method IndexRows(nodes: map<Id, Node>, rows: seq<Row>) returns (r: Result<Index, TraceError>)
    ensures r.Ok? <==> RowsOk(nodes, rows)
    ensures r.Err? ==> RowsFault(r.error, nodes, rows)
    ensures r.Ok? ==> r.value == IndexOf(nodes, rows)
  {
    hide RowOk, DistinctRows, Indexed, RepeatedEvent, MinedTwice;
    if |rows| > MAX_TRACE_ROWS { return Err(TooManyRows); }
    var x := Index(map[], map[], []);
    assert DistinctRows(rows[..0]) by { NoRows(); }
    for i := 0 to |rows|
      invariant forall j :: 0 <= j < i ==> RowOk(nodes, rows[j]) && rows[j].node in nodes
      invariant DistinctRows(rows[..i])
      invariant x == IndexOf(nodes, rows[..i])
    {
      var row := rows[i];
      if !RowOk(nodes, row) { return Err(BadRow); }
      RowNode(nodes, row);
      IndexFacts(nodes, rows[..i]);
      RowAdds(nodes, rows, i);
      if Key(row) in x.events {
        RowRepeats(nodes, rows, i, x);
        return Err(DuplicateEvent);
      }
      if row.event == "mined" && row.block in x.mined {
        RowRepeats(nodes, rows, i, x);
        return Err(BadMiner);
      }
      assert rows[..i + 1][..i] == rows[..i];
      x := AddRow(nodes, x, row);
    }
    assert rows[..|rows|] == rows;
    return Ok(x);
  }

  lemma NoRows()
    ensures DistinctRows([])
  {
  }

  lemma RowNode(nodes: map<Id, Node>, row: Row)
    requires RowOk(nodes, row)
    ensures row.node in nodes
  {
  }

  ghost predicate Unseen(x: Index, row: Row) {
    Key(row) !in x.events && !(row.event == "mined" && row.block in x.mined)
  }

  /** A row extends a duplicate-free prefix exactly when its key, and its block if mined, are new. */
  lemma RowAdds(nodes: map<Id, Node>, rows: seq<Row>, i: nat)
    requires i < |rows| && DistinctRows(rows[..i])
    requires forall j :: 0 <= j < i ==> rows[j].node in nodes
    requires Indexed(nodes, rows[..i], IndexOf(nodes, rows[..i]))
    ensures Unseen(IndexOf(nodes, rows[..i]), rows[i]) ==> DistinctRows(rows[..i + 1])
    ensures !Unseen(IndexOf(nodes, rows[..i]), rows[i]) ==> !DistinctRows(rows)
  {
    hide IndexOf, DistinctRows;
    var x := IndexOf(nodes, rows[..i]);
    if Unseen(x, rows[i]) {
      RowExtends(nodes, rows[..i], rows[i], x);
      assert rows[..i + 1] == rows[..i] + [rows[i]];
    } else {
      RowRepeats(nodes, rows, i, x);
    }
  }

  lemma RowRepeats(nodes: map<Id, Node>, rows: seq<Row>, i: nat, x: Index)
    requires i < |rows| && Indexed(nodes, rows[..i], x) && !Unseen(x, rows[i])
    ensures !DistinctRows(rows)
    ensures Key(rows[i]) in x.events ==> RepeatedEvent(rows)
    ensures Key(rows[i]) !in x.events ==> MinedTwice(rows)
  {
    var row := rows[i];
    if Key(row) in x.events {
      var j :| 0 <= j < i && rows[j] == x.events[Key(row)];
      assert Key(rows[j]) == Key(rows[i]);
    } else {
      MinedHasRow(nodes, rows[..i], x, row.block);
      var r :| r in rows[..i] && r.event == "mined" && r.block == row.block;
      var j :| 0 <= j < i && rows[j] == r;
      assert rows[j].block == rows[i].block;
    }
  }

  lemma RowExtends(nodes: map<Id, Node>, d: seq<Row>, row: Row, x: Index)
    requires DistinctRows(d) && Indexed(nodes, d, x) && Unseen(x, row)
    ensures DistinctRows(d + [row])
  {
    var e := d + [row];
    forall j | 0 <= j < |d|
      ensures Key(d[j]) != Key(row)
      ensures d[j].event == "mined" && row.event == "mined" ==> d[j].block != row.block
    {
      assert d[j] in d;
    }
    assert forall j :: 0 <= j < |d| ==> e[j] == d[j];
  }

  // ---------- the trace ----------

  datatype Trace = Trace(nodes: map<Id, Node>, ids: seq<Id>, index: Index)

  function TraceOf(raw: seq<Node>, rows: seq<Row>): Trace
    requires forall i :: 0 <= i < |rows| ==> rows[i].node in NodeTable(raw)
  {
    Trace(NodeTable(raw), NodeIds(raw), IndexOf(NodeTable(raw), rows))
  }

  /** Every event belongs to a mined block, and only the source's own event is a mined one. */
  ghost predicate EventOk(t: Trace, p: Pair)
    requires p in t.index.events
  {
    && p.1 in t.nodes
    && p.0 in t.index.mined
    && t.index.events[p].event == (if p.1 == t.index.mined[p.0].source then "mined" else "received")
  }

  ghost predicate TraceOk(t: Trace) {
    && Distinct(t.ids) && Elems(t.ids) == t.nodes.Keys
    && Distinct(t.index.blocks) && Elems(t.index.blocks) == t.index.mined.Keys
    && (forall b :: b in t.index.mined ==> OriginOk(t.nodes, t.index, b))
    && (forall p :: p in t.index.events ==> EventOk(t, p))
    && (forall n :: n in t.nodes ==> t.nodes[n].uncertainty >= 0)
  }

  ghost predicate AllOrigins(x: Index) {
    forall p :: p in x.events ==> p.0 in x.mined
  }

  lemma TraceFacts(raw: seq<Node>, rows: seq<Row>)
    requires NodesOk(raw) && RowsOk(NodeTable(raw), rows)
    requires forall i :: 0 <= i < |rows| ==> rows[i].node in NodeTable(raw)
    requires AllOrigins(TraceOf(raw, rows).index)
    ensures TraceOk(TraceOf(raw, rows))
  {
    var t := TraceOf(raw, rows);
    IndexFacts(t.nodes, rows);
    IdsDistinct(raw);
    forall n | n in t.nodes
      ensures t.nodes[n].uncertainty >= 0
    {
      NodeTableKeys(raw, n);
      var i :| 0 <= i < |raw| && raw[i] == t.nodes[n];
      assert NodeOk(raw[i]);
    }
    forall p | p in t.index.events
      ensures EventOk(t, p)
    {
      EventFacts(t, rows, p);
    }
  }

  lemma IdsDistinct(raw: seq<Node>)
    requires DistinctNodes(raw)
    ensures Distinct(NodeIds(raw)) && Elems(NodeIds(raw)) == NodeTable(raw).Keys
  {
    forall n
      ensures n in NodeTable(raw) <==> n in NodeIds(raw)
    {
      NodeTableKeys(raw, n);
    }
  }

  lemma EventFacts(t: Trace, rows: seq<Row>, p: Pair)
    requires RowsOk(t.nodes, rows) && Indexed(t.nodes, rows, t.index) && AllOrigins(t.index)
    requires p in t.index.events
    ensures EventOk(t, p)
  {
    hide DistinctRows;
    var row := t.index.events[p];
    var i :| 0 <= i < |rows| && rows[i] == row;
    assert RowOk(t.nodes, rows[i]);
    assert OriginOk(t.nodes, t.index, p.0);
  }
}
