/**
 * The batch job that refreshes the node table with graph metrics and
 * produces the processed graph: a directed graph over the accounts, per-node
 * out-degree and transaction velocity, a dense row index over the node
 * table, the edge list restricted to transactions between indexed accounts,
 * and the 5-column feature matrix.
 */
module FeatureEngineering {
  import opened SharedData

  /** The columns of the input node table that survive the refresh */
  datatype NodeInput = NodeInput(nodeId: string, accountAgeDays: real, balance: real, isFraud: int)

  /** One row of transactions.csv */
  datatype TxRecord = TxRecord(source: string, target: string, amount: real)

  /** One entry of the metrics list */
  datatype Metric = Metric(nodeId: string, outDegree: nat, riskRatio: real, txVelocity: nat, pagerank: real)

  function NodeIds(nodes: seq<NodeInput>): (ids: seq<string>)
    ensures |ids| == |nodes|
    ensures forall k :: 0 <= k < |nodes| ==> ids[k] == nodes[k].nodeId
  {
    seq(|nodes|, k requires 0 <= k < |nodes| => nodes[k].nodeId)
  }

  function AllButLast<T>(s: seq<T>): seq<T>
    requires s != []
  {
    s[..|s| - 1]
  }

  // ---------------------------------------------------------------------
  // The directed graph: networkx DiGraph, adjacency as successor sets
  // ---------------------------------------------------------------------

  /** Every account named by a transaction, as source or target */
  function Endpoints(txs: seq<TxRecord>): set<string>
  {
    if txs == [] then {}
    else
      var t := txs[|txs| - 1];
      Endpoints(AllButLast(txs)) + {t.source, t.target}
  }

  /**
   * Successors of u in the DiGraph: the targets of transactions from u.
   * Repeated (u, v) transactions collapse into a single edge.
   */
  function Successors(txs: seq<TxRecord>, u: string): set<string>
  {
    if txs == [] then {}
    else
      var t := txs[|txs| - 1];
      Successors(AllButLast(txs), u) + (if t.source == u then {t.target} else {})
  }

  /** Number of transactions whose source is u, duplicates included */
  function TxVelocity(txs: seq<TxRecord>, u: string): nat
  {
    if txs == [] then 0
    else
      var t := txs[|txs| - 1];
      TxVelocity(AllButLast(txs), u) + (if t.source == u then 1 else 0)
  }

  lemma {:induction false} EndpointsMembership(txs: seq<TxRecord>, a: string)
    ensures a in Endpoints(txs) <==>
      exists k :: 0 <= k < |txs| && (txs[k].source == a || txs[k].target == a)
  {
    if txs != [] {
      var prev := AllButLast(txs);
      EndpointsMembership(prev, a);
      assert forall k :: 0 <= k < |prev| ==> prev[k] == txs[k];
    }
  }

  /** v is a successor of u iff some transaction goes from u to v */
  lemma {:induction false} SuccessorsMembership(txs: seq<TxRecord>, u: string, v: string)
    ensures v in Successors(txs, u) <==>
      exists k :: 0 <= k < |txs| && txs[k].source == u && txs[k].target == v
  {
    if txs != [] {
      var prev := AllButLast(txs);
      SuccessorsMembership(prev, u, v);
      assert forall k :: 0 <= k < |prev| ==> prev[k] == txs[k];
    }
  }

  /** Collapsing repeated pairs can only lose edges: out-degree never exceeds velocity */
  lemma {:induction false} OutDegreeAtMostVelocity(txs: seq<TxRecord>, u: string)
    ensures |Successors(txs, u)| <= TxVelocity(txs, u)
  {
    if txs != [] {
      var t := txs[|txs| - 1];
      OutDegreeAtMostVelocity(AllButLast(txs), u);
      var before := Successors(AllButLast(txs), u);
      if t.source == u {
        assert |before + {t.target}| <= |before| + 1;
      }
    }
  }

  /** Every transaction from u adds one to the velocity */
  lemma {:induction false} VelocityCountsSources(txs: seq<TxRecord>, u: string)
    ensures TxVelocity(txs, u) == |set k | 0 <= k < |txs| && txs[k].source == u|
  {
    if txs != [] {
      var n := |txs| - 1;
      var prev := AllButLast(txs);
      VelocityCountsSources(prev, u);
      var before := set k | 0 <= k < |prev| && prev[k].source == u;
      var after := set k | 0 <= k < |txs| && txs[k].source == u;
      assert before == set k | 0 <= k < n && txs[k].source == u;
      if txs[n].source == u {
        assert after == before + {n};
      } else {
        assert after == before;
      }
    }
  }

  /** The DiGraph after G.add_edge(t.source, t.target) */
  function AddEdge(succ: map<string, set<string>>, t: TxRecord): map<string, set<string>> {
    var out := if t.source in succ then succ[t.source] else {};
    var withSource := succ[t.source := out + {t.target}];
    if t.target in withSource then withSource else withSource[t.target := {}]
  }

  /** The adjacency built from the node ids and the first transactions */
  ghost predicate GraphOf(succ: map<string, set<string>>, nodeSet: set<string>, txs: seq<TxRecord>) {
    && succ.Keys == nodeSet + Endpoints(txs)
    && forall u :: u in succ ==> succ[u] == Successors(txs, u)
  }

  lemma AddEdgeStep(succ: map<string, set<string>>, nodeSet: set<string>, txs: seq<TxRecord>, t: TxRecord)
    requires GraphOf(succ, nodeSet, txs)
    ensures GraphOf(AddEdge(succ, t), nodeSet, txs + [t])
  {
    var txs' := txs + [t];
    assert AllButLast(txs') == txs;
    var succ' := AddEdge(succ, t);
    forall u | u in succ'
      ensures succ'[u] == Successors(txs', u)
    {
      assert Successors(txs', u) == Successors(txs, u) + (if t.source == u then {t.target} else {});
      if u == t.source {
        if u !in succ {
          SuccessorsEmpty(txs, u);
        }
      } else if u == t.target && t.target !in succ {
        assert u !in nodeSet + Endpoints(txs);
        SuccessorsEmpty(txs, u);
      }
    }
  }

  /** An account that no transaction names has no successors */
  lemma {:induction false} SuccessorsEmpty(txs: seq<TxRecord>, u: string)
    requires u !in Endpoints(txs)
    ensures Successors(txs, u) == {}
  {
    if txs != [] {
      SuccessorsEmpty(AllButLast(txs), u);
    }
  }

  /**
   * G.add_nodes_from(node ids), then G.add_edge(src, tgt) for every
   * transaction: a node for every account named anywhere, and u's successor
   * set holding exactly the targets of u's transactions.
   */
  method BuildDiGraph(nodeIds: seq<string>, txs: seq<TxRecord>) returns (succ: map<string, set<string>>)
    ensures succ.Keys == (set k | 0 <= k < |nodeIds| :: nodeIds[k]) + Endpoints(txs)
    ensures forall u :: u in succ ==> succ[u] == Successors(txs, u)
  {
    succ := map[];
    var i := 0;
    while i < |nodeIds|
      invariant 0 <= i <= |nodeIds|
      invariant succ.Keys == set k | 0 <= k < i :: nodeIds[k]
      invariant forall u :: u in succ ==> succ[u] == {}
    {
      assert (set k | 0 <= k < i + 1 :: nodeIds[k]) == (set k | 0 <= k < i :: nodeIds[k]) + {nodeIds[i]};
      if nodeIds[i] !in succ {
        succ := succ[nodeIds[i] := {}];
      }
      i := i + 1;
    }
    ghost var nodeSet := succ.Keys;
    var j := 0;
    while j < |txs|
      invariant 0 <= j <= |txs|
      invariant GraphOf(succ, nodeSet, txs[..j])
    {
      AddEdgeStep(succ, nodeSet, txs[..j], txs[j]);
      assert txs[..j] + [txs[j]] == txs[..j + 1];
      succ := AddEdge(succ, txs[j]);
      j := j + 1;
    }
    assert txs[..j] == txs;
  }

  // ---------------------------------------------------------------------
  // Per-node metrics and the refreshed node table
  // ---------------------------------------------------------------------

  /** pagerank_scores.get(node_id, 0) */
  function PageRankOf(pagerank: map<string, real>, u: string): real {
    if u in pagerank then pagerank[u] else 0.0
  }

  /** The metrics entry for one node id */
  function MetricOf(u: string, txs: seq<TxRecord>, pagerank: map<string, real>, flowRatio: string -> real): Metric {
    Metric(u, |Successors(txs, u)|, flowRatio(u), TxVelocity(txs, u), PageRankOf(pagerank, u))
  }

  /**
   * The metrics loop: one entry per node-table row, in table order, with the
   * DiGraph out-degree and the velocity of that row's id.
   */
  method ComputeMetrics(nodeIds: seq<string>, txs: seq<TxRecord>, succ: map<string, set<string>>,
                        pagerank: map<string, real>, flowRatio: string -> real)
    returns (metrics: seq<Metric>)
    requires forall k :: 0 <= k < |nodeIds| ==> nodeIds[k] in succ
    requires forall u :: u in succ ==> succ[u] == Successors(txs, u)
    ensures |metrics| == |nodeIds|
    ensures forall k :: 0 <= k < |nodeIds| ==> metrics[k] == MetricOf(nodeIds[k], txs, pagerank, flowRatio)
  {
    metrics := [];
    var i := 0;
    while i < |nodeIds|
      invariant 0 <= i <= |nodeIds|
      invariant |metrics| == i
      invariant forall k :: 0 <= k < i ==> metrics[k] == MetricOf(nodeIds[k], txs, pagerank, flowRatio)
    {
      var u := nodeIds[i];
      var dOut := |succ[u]|;
      var velocity := TxVelocity(txs, u);
      metrics := metrics + [Metric(u, dOut, flowRatio(u), velocity, PageRankOf(pagerank, u))];
      i := i + 1;
    }
  }

  /** A node-table row joined with a metrics entry; in_out_ratio is a copy of risk_ratio */
  function Combine(n: NodeInput, m: Metric): NodeRow {
    NodeRow(n.nodeId, n.accountAgeDays, n.balance, n.isFraud, m.outDegree, m.riskRatio, m.txVelocity, m.pagerank, m.riskRatio)
  }

  /**
   * The rows a merge on node_id produces for one left row that has at least
   * one metrics entry, in metrics order; a left merge would add one row of
   * missing values for a left row with none, which the job never has (see
   * EveryNodeMatched).
   */
  function Matches(n: NodeInput, metrics: seq<Metric>): seq<NodeRow>
  {
    if metrics == [] then []
    else
      (if metrics[0].nodeId == n.nodeId then [Combine(n, metrics[0])] else []) + Matches(n, metrics[1..])
  }

  /** pd.merge(nodes, metrics, on='node_id', how='left'), for metrics that cover every node id */
  function Join(nodes: seq<NodeInput>, metrics: seq<Metric>): seq<NodeRow>
  {
    if nodes == [] then [] else Join(AllButLast(nodes), metrics) + Matches(nodes[|nodes| - 1], metrics)
  }

  lemma {:induction false} MatchesSingle(n: NodeInput, metrics: seq<Metric>, i: nat)
    requires i < |metrics| && metrics[i].nodeId == n.nodeId
    requires forall j :: 0 <= j < |metrics| && j != i ==> metrics[j].nodeId != n.nodeId
    ensures Matches(n, metrics) == [Combine(n, metrics[i])]
  {
    if i == 0 {
      MatchesNone(n, metrics[1..]);
    } else {
      MatchesSingle(n, metrics[1..], i - 1);
    }
  }

  /** Helper of MatchesSingle: a row without metrics entries gets no merged row here */
  lemma {:induction false} MatchesNone(n: NodeInput, metrics: seq<Metric>)
    requires forall j :: 0 <= j < |metrics| ==> metrics[j].nodeId != n.nodeId
    ensures Matches(n, metrics) == []
  {
    if metrics != [] {
      MatchesNone(n, metrics[1..]);
    }
  }

  /**
   * With unique node ids and one metrics entry per row, the merge keeps the
   * table's rows and order: row k is node k joined with metrics entry k.
   */
  lemma {:induction false} JoinOneToOne(nodes: seq<NodeInput>, metrics: seq<Metric>, n: nat)
    requires Distinct(NodeIds(nodes))
    requires |metrics| == |nodes| && n <= |nodes|
    requires forall k :: 0 <= k < |nodes| ==> metrics[k].nodeId == nodes[k].nodeId
    ensures |Join(nodes[..n], metrics)| == n
    ensures forall k :: 0 <= k < n ==> Join(nodes[..n], metrics)[k] == Combine(nodes[k], metrics[k])
  {
    if n > 0 {
      JoinOneToOne(nodes, metrics, n - 1);
      assert AllButLast(nodes[..n]) == nodes[..n - 1];
      forall j | 0 <= j < |metrics| && j != n - 1
        ensures metrics[j].nodeId != nodes[n - 1].nodeId
      {
        var ids := NodeIds(nodes);
        if j < n - 1 { assert ids[j] != ids[n - 1]; } else { assert ids[n - 1] != ids[j]; }
      }
      MatchesSingle(nodes[n - 1], metrics, n - 1);
    }
  }

  /** An entry with the row's node id gives that row a merged row */
  lemma {:induction false} MatchesFound(n: NodeInput, metrics: seq<Metric>, i: nat)
    requires i < |metrics| && metrics[i].nodeId == n.nodeId
    ensures Combine(n, metrics[i]) in Matches(n, metrics)
  {
    if i > 0 {
      MatchesFound(n, metrics[1..], i - 1);
    }
  }

  /** The metrics list computed over the node table */
  function MetricsOf(nodes: seq<NodeInput>, txs: seq<TxRecord>, pagerank: map<string, real>, flowRatio: string -> real)
    : (ms: seq<Metric>)
    ensures |ms| == |nodes|
    ensures forall k :: 0 <= k < |nodes| ==> ms[k] == MetricOf(nodes[k].nodeId, txs, pagerank, flowRatio)
  {
    seq(|nodes|, k requires 0 <= k < |nodes| => MetricOf(nodes[k].nodeId, txs, pagerank, flowRatio))
  }

  /**
   * Every row of the node table, duplicates included, has its own metrics
   * entry, so the left merge never has to fill a row with missing values.
   */
  lemma EveryNodeMatched(nodes: seq<NodeInput>, txs: seq<TxRecord>, pagerank: map<string, real>,
                         flowRatio: string -> real, k: nat)
    requires k < |nodes|
    ensures var ms := MetricsOf(nodes, txs, pagerank, flowRatio);
      Combine(nodes[k], ms[k]) in Matches(nodes[k], ms)
  {
    MatchesFound(nodes[k], MetricsOf(nodes, txs, pagerank, flowRatio), k);
  }

  /** The refreshed nodes.csv */
  function RefreshedTable(nodes: seq<NodeInput>, txs: seq<TxRecord>, pagerank: map<string, real>, flowRatio: string -> real)
    : seq<NodeRow>
  {
    Join(nodes, MetricsOf(nodes, txs, pagerank, flowRatio))
  }

  /**
   * With unique node ids the refreshed table has one row per input row, in
   * input order, carrying that account's out-degree (distinct targets),
   * velocity (all its transactions), and in_out_ratio equal to risk_ratio.
   */
  lemma RefreshedTableRows(nodes: seq<NodeInput>, txs: seq<TxRecord>, pagerank: map<string, real>, flowRatio: string -> real)
    requires Distinct(NodeIds(nodes))
    ensures |RefreshedTable(nodes, txs, pagerank, flowRatio)| == |nodes|
    ensures forall k :: 0 <= k < |nodes| ==>
      var r := RefreshedTable(nodes, txs, pagerank, flowRatio)[k];
      && r.nodeId == nodes[k].nodeId
      && r.accountAgeDays == nodes[k].accountAgeDays && r.balance == nodes[k].balance
      && r.isFraud == nodes[k].isFraud
      && r.pagerank == PageRankOf(pagerank, nodes[k].nodeId)
      && r.riskRatio == flowRatio(nodes[k].nodeId)
      && r.outDegree == |Successors(txs, nodes[k].nodeId)|
      && r.txVelocity == TxVelocity(txs, nodes[k].nodeId)
      && r.outDegree <= r.txVelocity
      && r.inOutRatio == r.riskRatio
  {
    var ms := MetricsOf(nodes, txs, pagerank, flowRatio);
    JoinOneToOne(nodes, ms, |nodes|);
    assert nodes[..|nodes|] == nodes;
    forall k | 0 <= k < |nodes| {
      OutDegreeAtMostVelocity(txs, nodes[k].nodeId);
    }
  }

  // ---------------------------------------------------------------------
  // The processed graph
  // ---------------------------------------------------------------------

  /**
   * The valid_mask filter: a transaction contributes the edge
   * (mapping[source], mapping[target]) iff both ends are in the mapping,
   * in transaction-table order.
   */
  function EdgeIndex(txs: seq<TxRecord>, mapping: map<string, nat>): seq<Edge>
  {
    if txs == [] then []
    else
      var t := txs[|txs| - 1];
      EdgeIndex(AllButLast(txs), mapping)
        + (if t.source in mapping && t.target in mapping then [Edge(mapping[t.source], mapping[t.target])] else [])
  }

  /** Filtering commutes with concatenation, so kept edges keep their relative order */
  lemma {:induction false} EdgeIndexAppend(a: seq<TxRecord>, b: seq<TxRecord>, mapping: map<string, nat>)
    ensures EdgeIndex(a + b, mapping) == EdgeIndex(a, mapping) + EdgeIndex(b, mapping)
  {
    if b == [] {
      assert a + b == a;
    } else {
      assert AllButLast(a + b) == a + AllButLast(b);
      EdgeIndexAppend(a, AllButLast(b), mapping);
    }
  }

  /** An edge is in the list iff some transaction with both ends mapped produced it */
  lemma {:induction false} EdgeIndexMembership(txs: seq<TxRecord>, mapping: map<string, nat>, e: Edge)
    ensures e in EdgeIndex(txs, mapping) <==>
      exists k :: 0 <= k < |txs| && txs[k].source in mapping && txs[k].target in mapping
        && e == Edge(mapping[txs[k].source], mapping[txs[k].target])
  {
    if txs != [] {
      var prev := AllButLast(txs);
      EdgeIndexMembership(prev, mapping, e);
      assert forall k :: 0 <= k < |prev| ==> prev[k] == txs[k];
    }
  }

  /** Only mapped values appear as endpoints, so every endpoint is below the table size */
  lemma {:induction false} EdgeIndexInRange(txs: seq<TxRecord>, ids: seq<string>)
    ensures |EdgeIndex(txs, IdIndex(ids))| <= |txs|
    ensures EndpointsInRange(EdgeIndex(txs, IdIndex(ids)), |ids|)
  {
    if txs != [] {
      EdgeIndexInRange(AllButLast(txs), ids);
    }
  }

  /** [account_age_days, balance, in_out_ratio, pagerank, tx_velocity] of one row */
  function FeaturesOf(r: NodeRow): (f: FeatureRow)
    ensures |f| == FeatureCount
  {
    [r.accountAgeDays, r.balance, r.inOutRatio, r.pagerank, r.txVelocity as real]
  }

  function FeatureMatrix(table: seq<NodeRow>): (x: seq<FeatureRow>)
    ensures |x| == |table|
    ensures forall k :: 0 <= k < |table| ==> x[k] == FeaturesOf(table[k])
  {
    seq(|table|, k requires 0 <= k < |table| => FeaturesOf(table[k]))
  }

  function Labels(table: seq<NodeRow>): (y: seq<int>)
    ensures |y| == |table|
    ensures forall k :: 0 <= k < |table| ==> y[k] == table[k].isFraud
  {
    seq(|table|, k requires 0 <= k < |table| => table[k].isFraud)
  }

  /** The Data object saved as processed_graph.pt */
  function ProcessedGraph(table: seq<NodeRow>, txs: seq<TxRecord>): GraphData {
    GraphData(FeatureMatrix(table), EdgeIndex(txs, IdIndex(Ids(table))), Labels(table))
  }

  /**
   * The invariant the inference service's indexing relies on: one feature
   * row of width 5 per table row, one label per row, and every edge endpoint
   * an existing row.
   */
  lemma ProcessedGraphWellFormed(table: seq<NodeRow>, txs: seq<TxRecord>)
    ensures var g := ProcessedGraph(table, txs);
      && |g.x| == |table| && |g.y| == |table|
      && RowsHaveWidth(g.x, FeatureCount)
      && EndpointsInRange(g.edgeIndex, |g.x|)
      && |g.edgeIndex| <= |txs|
  {
    EdgeIndexInRange(txs, Ids(table));
  }

  /**
   * build_graph_data with its file reads and writes turned into parameters
   * and results; PageRank and the in/out amount ratio are given.
   */
  method BuildGraphData(nodes: seq<NodeInput>, txs: seq<TxRecord>, pagerank: map<string, real>, flowRatio: string -> real)
    returns (table: seq<NodeRow>, data: GraphData)
    ensures table == RefreshedTable(nodes, txs, pagerank, flowRatio)
    ensures data == ProcessedGraph(table, txs)
    ensures |data.x| == |table| && RowsHaveWidth(data.x, FeatureCount)
    ensures EndpointsInRange(data.edgeIndex, |data.x|)
  {
    var ids := NodeIds(nodes);
    var succ := BuildDiGraph(ids, txs);
    var metrics := ComputeMetrics(ids, txs, succ, pagerank, flowRatio);
    assert metrics == MetricsOf(nodes, txs, pagerank, flowRatio);
    table := Join(nodes, metrics);
    var mapping := IdIndex(Ids(table));
    data := GraphData(FeatureMatrix(table), EdgeIndex(txs, mapping), Labels(table));
    ProcessedGraphWellFormed(table, txs);
  }
}
