/**
 * The real-time inference service: the assets it loads once (processed
 * graph, node table, identifier maps, trained network) and the per-request
 * analysis that resolves the two account ids, builds the source's feature
 * row, injects one edge into a copy of the graph, scores the source row and
 * turns the fraud probability into a verdict with up to three linked
 * accounts.
 */
module Inference {
  import opened Common
  import opened SharedData
  import FeatureEngineering

  type Probability = p: real | 0.0 <= p <= 1.0

  /**
   * The trained MuleSAGE network followed by exp of its log-softmax output:
   * the fraud-class probability of one row, given the feature matrix and the
   * edge list. Defined only when the row exists, every row has 5 columns and
   * every edge endpoint is a row (see ForwardDefined).
   */
  type Scorer = (seq<FeatureRow>, seq<Edge>, nat) -> Probability

  const CriticalThreshold: real := 0.85
  const SuspiciousThreshold: real := 0.6
  /** Divisor applied to the amount; tied to how the model was trained */
  const AmountScale: real := 1000.0
  const LinkedLimit: nat := 3
  const ModelVersion: string := "Kaggle-V2-Bulletproof"

  const Critical: string := "CRITICAL (MULE)"
  const Suspicious: string := "SUSPICIOUS"
  const Safe: string := "SAFE"

  datatype TransactionRequest = TransactionRequest(sourceId: int, targetId: int, amount: real, timestamp: string)

  datatype RiskResponse = RiskResponse(
    nodeId: int,
    riskScore: real,
    verdict: string,
    modelVersion: string,
    outDegree: int,
    riskRatio: real,
    populationSize: string,
    linkedAccounts: seq<string>)

  datatype HttpError = HttpError(status: nat, detail: string)

  /** HTTPException(503) raised when the model or the graph is missing */
  const NotLoaded: HttpError := HttpError(503, "AI Brain is not loaded.")
  /** What the catch-all exception handler answers for any exception raised inside the analysis */
  const InternalError: HttpError := HttpError(500, "Internal Server Error")

  /** The module globals an analysis reads */
  datatype Snapshot = Snapshot(
    model: Option<Scorer>,
    graph: Option<GraphData>,
    table: seq<NodeRow>,
    idMap: map<string, nat>,
    reverseIdMap: map<nat, string>)

  // ---------------------------------------------------------------------
  // Verdict policy
  // ---------------------------------------------------------------------

  /** Strictly above 0.85 is critical, strictly above 0.6 suspicious, anything else safe */
  function VerdictFor(p: real): (v: string)
    ensures v == Critical <==> p > CriticalThreshold
    ensures v == Suspicious <==> SuspiciousThreshold < p <= CriticalThreshold
    ensures v == Safe <==> p <= SuspiciousThreshold
  {
    if p > CriticalThreshold then Critical
    else if p > SuspiciousThreshold then Suspicious
    else Safe
  }

  function Severity(v: string): nat {
    if v == Critical then 2 else if v == Suspicious then 1 else 0
  }

  /** A higher fraud probability never yields a milder verdict */
  lemma VerdictMonotone(p: real, q: real)
    requires p <= q
    ensures Severity(VerdictFor(p)) <= Severity(VerdictFor(q))
  {
  }

  /** Both thresholds are strict */
  lemma VerdictBoundaries()
    ensures VerdictFor(0.85) == Suspicious
    ensures VerdictFor(0.6) == Safe
  {
  }

  // ---------------------------------------------------------------------
  // Feature rows
  // ---------------------------------------------------------------------

  /** Features of an account absent from the node table */
  function ColdStartFeatures(amount: real): FeatureRow {
    [30.0, amount / AmountScale, 1.0, 0.0001, 1.0]
  }

  /** Features of a known account, with the current amount in the second column */
  function KnownFeatures(row: NodeRow, amount: real): FeatureRow {
    [row.accountAgeDays, amount / AmountScale, row.inOutRatio, row.pagerank, (row.txVelocity + 1) as real]
  }

  // ---------------------------------------------------------------------
  // The request-scoped graph
  // ---------------------------------------------------------------------

  /** The private copy one request scores, and what it reports about the source */
  datatype RequestGraph = RequestGraph(
    x: seq<FeatureRow>,
    edges: seq<Edge>,
    src: nat,
    tgt: nat,
    features: FeatureRow,
    outDegree: int,
    riskRatio: real)

  /** The copied matrix with row src replaced, when src is a row */
  function RequestMatrix(x: seq<FeatureRow>, src: nat, features: FeatureRow): (t: seq<FeatureRow>)
    ensures |t| == |x|
    ensures forall k :: 0 <= k < |x| && k != src ==> t[k] == x[k]
    ensures src < |x| ==> t[src] == features
  {
    if src < |x| then x[src := features] else x
  }

  /** The row index the source account resolves to: its map entry, or 0 when it has none */
  function SourceIndex(idMap: map<string, nat>, tx: TransactionRequest): nat {
    Lookup(idMap, IntToDecimal(tx.sourceId)).GetOr(0)
  }

  /**
   * Row src of the matrix can take a 5-feature row: assigning a row of five
   * values into a tensor row of any other width raises, and an index past
   * the last row skips the assignment.
   */
  predicate RowFits(x: seq<FeatureRow>, src: nat) {
    src < |x| ==> |x[src]| == FeatureCount
  }

  /**
   * Lookup of both ids, the source's feature row, the injected edge and the
   * overwritten row. An unknown target becomes index 0; an unknown source
   * becomes index 0 with cold-start features, so row 0 of the copy is
   * overwritten. Reading a table row the identifier map points past fails,
   * and so does overwriting a row that is not five features wide.
   */
  function Extend(g: GraphData, table: seq<NodeRow>, idMap: map<string, nat>, tx: TransactionRequest)
    : (r: Result<RequestGraph, HttpError>)
    ensures r.Err? <==>
      || (var key := IntToDecimal(tx.sourceId); key in idMap && idMap[key] >= |table|)
      || !RowFits(g.x, SourceIndex(idMap, tx))
    ensures r.Err? ==> r.error == InternalError
    ensures r.Ok? ==>
      var q := r.value;
      && q.src == SourceIndex(idMap, tx)
      && |q.features| == FeatureCount
      && q.tgt == Lookup(idMap, IntToDecimal(tx.targetId)).GetOr(0)
      && q.edges == g.edgeIndex + [Edge(q.src, q.tgt)]
      && |q.x| == |g.x|
      && (forall k :: 0 <= k < |g.x| && k != q.src ==> q.x[k] == g.x[k])
      && (q.src < |g.x| ==> q.x[q.src] == q.features)
      && (q.src >= |g.x| ==> q.x == g.x)
  {
    var tgt := Lookup(idMap, IntToDecimal(tx.targetId)).GetOr(0);
    match Lookup(idMap, IntToDecimal(tx.sourceId))
    case Some(i) =>
      if i >= |table| || !RowFits(g.x, i) then Err(InternalError)
      else
        var f := KnownFeatures(table[i], tx.amount);
        Ok(RequestGraph(RequestMatrix(g.x, i, f), g.edgeIndex + [Edge(i, tgt)], i, tgt, f,
                        table[i].outDegree + 1, table[i].riskRatio))
    case None =>
      if !RowFits(g.x, 0) then Err(InternalError)
      else
        var f := ColdStartFeatures(tx.amount);
        Ok(RequestGraph(RequestMatrix(g.x, 0, f), g.edgeIndex + [Edge(0, tgt)], 0, tgt, f, 1, 1.0))
  }

  /** The forward pass and out[src_idx] succeed exactly when nothing is out of shape */
  predicate ForwardDefined(x: seq<FeatureRow>, edges: seq<Edge>, row: nat) {
    row < |x| && RowsHaveWidth(x, FeatureCount) && EndpointsInRange(edges, |x|)
  }

  // ---------------------------------------------------------------------
  // Linked accounts
  // ---------------------------------------------------------------------

  /** edge_index[1][edge_index[0] == src]: targets of src's edges, in edge-list order */
  function Neighbors(edges: seq<Edge>, src: nat): seq<nat>
  {
    if edges == [] then []
    else
      var e := edges[|edges| - 1];
      Neighbors(edges[..|edges| - 1], src) + (if e.src == src then [e.dst] else [])
  }

  function CardLabel(reverseIdMap: map<nat, string>, i: nat): string {
    "Card_" + (if i in reverseIdMap then reverseIdMap[i] else "Unknown")
  }

  function Take<T>(s: seq<T>, n: nat): (t: seq<T>)
    ensures |t| == if |s| < n then |s| else n
    ensures t == s[..|t|]
  {
    if |s| <= n then s else s[..n]
  }

  /** Labels of the first three neighbours */
  function LinkedAccounts(edges: seq<Edge>, src: nat, reverseIdMap: map<nat, string>): seq<string>
  {
    var ns := Take(Neighbors(edges, src), LinkedLimit);
    seq(|ns|, k requires 0 <= k < |ns| => CardLabel(reverseIdMap, ns[k]))
  }

  /** Neighbour extraction commutes with concatenation: edge-list order is kept */
  lemma {:induction false} NeighborsAppend(a: seq<Edge>, b: seq<Edge>, src: nat)
    ensures Neighbors(a + b, src) == Neighbors(a, src) + Neighbors(b, src)
  {
    if b != [] {
      assert (a + b)[..|a + b| - 1] == a + b[..|b| - 1];
      NeighborsAppend(a, b[..|b| - 1], src);
    } else {
      assert a + b == a;
    }
  }

  /** v is a neighbour iff some edge goes from src to v */
  lemma {:induction false} NeighborsMembership(edges: seq<Edge>, src: nat, v: nat)
    ensures v in Neighbors(edges, src) <==> Edge(src, v) in edges
  {
    if edges != [] {
      var prev := edges[..|edges| - 1];
      NeighborsMembership(prev, src, v);
      assert edges == prev + [edges[|edges| - 1]];
    }
  }

  /**
   * At most three labels, in edge-list order, each naming the target of one
   * of src's edges, or "Card_Unknown" for an index with no identifier.
   */
  lemma LinkedAccountsShape(edges: seq<Edge>, src: nat, reverseIdMap: map<nat, string>)
    ensures var l := LinkedAccounts(edges, src, reverseIdMap);
      var ns := Neighbors(edges, src);
      && |l| <= LinkedLimit
      && |l| == (if |ns| < LinkedLimit then |ns| else LinkedLimit)
      && forall k :: 0 <= k < |l| ==>
           Edge(src, ns[k]) in edges &&
           l[k] == "Card_" + (if ns[k] in reverseIdMap then reverseIdMap[ns[k]] else "Unknown")
  {
    var ns := Neighbors(edges, src);
    forall k | 0 <= k < |ns| ensures Edge(src, ns[k]) in edges {
      NeighborsMembership(edges, src, ns[k]);
    }
  }

  // ---------------------------------------------------------------------
  // The analysis
  // ---------------------------------------------------------------------

  /**
   * analyze_transaction against one snapshot of the globals: 503 exactly
   * when the model or the graph is missing, otherwise 500 or an answer for
   * the requested source account, its verdict the threshold class of its
   * score, with the population size and at most three linked accounts.
   */
  function Analyze(s: Snapshot, tx: TransactionRequest): (r: Result<RiskResponse, HttpError>)
    ensures r == Err(NotLoaded) <==> s.model.None? || s.graph.None?
    ensures r.Err? ==> r.error == NotLoaded || r.error == InternalError
    ensures r.Ok? ==>
      && r.value.nodeId == tx.sourceId
      && 0.0 <= r.value.riskScore <= 1.0
      && r.value.verdict == VerdictFor(r.value.riskScore)
      && r.value.modelVersion == ModelVersion
      && r.value.populationSize == IntToDecimal(|s.idMap|) + " Nodes"
      && |r.value.linkedAccounts| <= LinkedLimit
  {
    if s.model.None? || s.graph.None? then Err(NotLoaded)
    else
      var g := s.graph.value;
      match Extend(g, s.table, s.idMap, tx)
      case Err(e) => Err(e)
      case Ok(q) =>
        if !ForwardDefined(q.x, q.edges, q.src) then Err(InternalError)
        else
          var p := s.model.value(q.x, q.edges, q.src);
          Ok(RiskResponse(tx.sourceId, p, VerdictFor(p), ModelVersion, q.outDegree, q.riskRatio,
                          IntToDecimal(|s.idMap|) + " Nodes", LinkedAccounts(g.edgeIndex, q.src, s.reverseIdMap)))
  }

  /** Assets as a complete load leaves them, over a graph consistent with the table */
  ghost predicate Serving(s: Snapshot) {
    && s.model.Some? && s.graph.Some?
    && s.idMap == IdIndex(Ids(s.table))
    && s.reverseIdMap == ReverseIndex(Ids(s.table))
    && 0 < |s.table| == |s.graph.value.x|
    && RowsHaveWidth(s.graph.value.x, FeatureCount)
    && EndpointsInRange(s.graph.value.edgeIndex, |s.graph.value.x|)
  }

  /** Without the model or the graph every request fails with 503 */
  lemma NotLoadedFails(s: Snapshot, tx: TransactionRequest)
    requires s.model.None? || s.graph.None?
    ensures Analyze(s, tx) == Err(NotLoaded)
  {
  }

  /**
   * On a well-formed snapshot every request is answered: the fraud
   * probability is the model's score of the source row in the extended copy,
   * the verdict is its threshold class, and the linked accounts come from
   * the base edge list.
   */
  lemma ServingAnswers(s: Snapshot, tx: TransactionRequest)
    requires Serving(s)
    ensures Analyze(s, tx).Ok?
    ensures Extend(s.graph.value, s.table, s.idMap, tx).Ok?
    ensures var q := Extend(s.graph.value, s.table, s.idMap, tx).value;
      var r := Analyze(s, tx).value;
      && q.src < |s.table|
      && r.riskScore == s.model.value(q.x, q.edges, q.src)
      && r.verdict == VerdictFor(r.riskScore)
      && r.nodeId == tx.sourceId
      && r.modelVersion == ModelVersion
      && r.linkedAccounts == LinkedAccounts(s.graph.value.edgeIndex, q.src, s.reverseIdMap)
      && r.outDegree == q.outDegree && r.riskRatio == q.riskRatio
  {
    var g := s.graph.value;
    var q := Extend(g, s.table, s.idMap, tx).value;
    assert q.src < |g.x|;
    assert q.tgt < |g.x|;
    assert RowsHaveWidth(q.x, FeatureCount) by {
      forall k | 0 <= k < |q.x| ensures |q.x[k]| == FeatureCount {
        if k != q.src { assert q.x[k] == g.x[k]; }
      }
    }
    assert EndpointsInRange(q.edges, |q.x|) by {
      forall k | 0 <= k < |q.edges| ensures q.edges[k].src < |q.x| && q.edges[k].dst < |q.x| {
        if k < |g.edgeIndex| { assert q.edges[k] == g.edgeIndex[k]; }
      }
    }
  }

  /**
   * Cold start: an unknown source is scored as row 0 with the default
   * features, so row 0 of the copy is overwritten and the injected edge
   * leaves row 0; it reports out_degree 1 and risk ratio 1.0.
   */
  lemma ColdStart(g: GraphData, table: seq<NodeRow>, idMap: map<string, nat>, tx: TransactionRequest)
    requires IntToDecimal(tx.sourceId) !in idMap
    ensures var r := Extend(g, table, idMap, tx);
      && (r.Ok? <==> (0 < |g.x| ==> |g.x[0]| == 5))
      && (r.Ok? ==>
        && r.value.src == 0
        && r.value.features == [30.0, tx.amount / 1000.0, 1.0, 0.0001, 1.0]
        && r.value.outDegree == 1 && r.value.riskRatio == 1.0
        && (0 < |g.x| ==> r.value.x[0] == r.value.features)
        && r.value.edges[|g.edgeIndex|] == Edge(0, r.value.tgt))
  {
  }

  /**
   * A base matrix whose rows are not five wide: overwriting the source row
   * raises, so a one-row, four-column graph with an empty identifier map
   * answers 500 to every request.
   */
  lemma NarrowRowFails(m: Scorer, tx: TransactionRequest)
    ensures Analyze(Snapshot(Some(m), Some(GraphData([[1.0, 2.0, 3.0, 4.0]], [], [0])), [], map[], map[]), tx)
         == Err(InternalError)
  {
  }

  /**
   * Known source: its own row, with the current amount and one more
   * transaction of velocity; out_degree is the persisted one plus one,
   * whatever the target, a self-loop included.
   */
  lemma KnownSource(g: GraphData, table: seq<NodeRow>, idMap: map<string, nat>, tx: TransactionRequest)
    requires var key := IntToDecimal(tx.sourceId); key in idMap && idMap[key] < |table|
    ensures var i := idMap[IntToDecimal(tx.sourceId)];
      var r := Extend(g, table, idMap, tx);
      && (r.Ok? <==> (i < |g.x| ==> |g.x[i]| == 5))
      && (r.Ok? ==>
        && r.value.src == i
        && r.value.features == [table[i].accountAgeDays, tx.amount / 1000.0, table[i].inOutRatio,
                                table[i].pagerank, (table[i].txVelocity + 1) as real]
        && r.value.outDegree == table[i].outDegree + 1
        && r.value.riskRatio == table[i].riskRatio)
  {
  }

  /**
   * The injected edge never reaches the linked accounts: two requests from
   * the same source report the same linked accounts whatever their targets
   * and amounts.
   */
  lemma LinkedIgnoresTarget(s: Snapshot, tx1: TransactionRequest, tx2: TransactionRequest)
    requires tx1.sourceId == tx2.sourceId
    requires Analyze(s, tx1).Ok? && Analyze(s, tx2).Ok?
    ensures Analyze(s, tx1).value.linkedAccounts == Analyze(s, tx2).value.linkedAccounts
  {
  }

  /**
   * The edge list the model sees holds src's base neighbours followed by the
   * injected target; the linked accounts are taken from the base neighbours
   * only.
   */
  lemma InjectedNeighbor(g: GraphData, table: seq<NodeRow>, idMap: map<string, nat>, tx: TransactionRequest)
    requires Extend(g, table, idMap, tx).Ok?
    ensures var q := Extend(g, table, idMap, tx).value;
      Neighbors(q.edges, q.src) == Neighbors(g.edgeIndex, q.src) + [q.tgt]
  {
    var q := Extend(g, table, idMap, tx).value;
    NeighborsAppend(g.edgeIndex, [Edge(q.src, q.tgt)], q.src);
    assert Neighbors([Edge(q.src, q.tgt)], q.src) == [q.tgt] by {
      assert [Edge(q.src, q.tgt)][..0] == [];
    }
  }

  /**
   * The node table and processed graph the feature-engineering job writes,
   * once loaded with a trained model, answer every request.
   */
  lemma ProcessedAssetsServe(table: seq<NodeRow>, txs: seq<FeatureEngineering.TxRecord>, model: Scorer, tx: TransactionRequest)
    requires 0 < |table|
    ensures var s := Snapshot(Some(model), Some(FeatureEngineering.ProcessedGraph(table, txs)), table,
                              IdIndex(Ids(table)), ReverseIndex(Ids(table)));
      Serving(s) && Analyze(s, tx).Ok?
  {
    FeatureEngineering.ProcessedGraphWellFormed(table, txs);
    var s := Snapshot(Some(model), Some(FeatureEngineering.ProcessedGraph(table, txs)), table,
                      IdIndex(Ids(table)), ReverseIndex(Ids(table)));
    ServingAnswers(s, tx);
  }

  // ---------------------------------------------------------------------
  // The service state
  // ---------------------------------------------------------------------

  /** What load_assets finds: each failure point leaves the globals assigned before it */
  datatype LoadOutcome =
    | AssetsMissing
    | GraphUnreadable
    | TableUnreadable(graph: GraphData)
    | WeightsUnreadable(graph: GraphData, table: seq<NodeRow>, untrained: Scorer)
    | Loaded(graph: GraphData, table: seq<NodeRow>, trained: Scorer)

  /** The globals after the node table and the network have been loaded */
  function LoadedSnapshot(model: Scorer, g: GraphData, table: seq<NodeRow>): Snapshot {
    Snapshot(Some(model), Some(g), table, IdIndex(Ids(table)), ReverseIndex(Ids(table)))
  }

  /**
   * Loading a node table and a processed graph that agree with it, together
   * with a network, leaves the service serving: every request is answered.
   */
  lemma ServiceServes(svc: InferenceService, tx: TransactionRequest)
    requires svc.Valid() && svc.model.Some? && svc.graphData.Some?
    requires 0 < |svc.nodeTable| == |svc.graphData.value.x|
    requires RowsHaveWidth(svc.graphData.value.x, FeatureCount)
    requires EndpointsInRange(svc.graphData.value.edgeIndex, |svc.graphData.value.x|)
    ensures Serving(svc.CurrentSnapshot())
    ensures Analyze(svc.CurrentSnapshot(), tx).Ok?
  {
    ServingAnswers(svc.CurrentSnapshot(), tx);
  }

  class InferenceService {
    var model: Option<Scorer>
    var graphData: Option<GraphData>
    var nodeTable: seq<NodeRow>
    var idMap: map<string, nat>
    var reverseIdMap: map<nat, string>

    /** The identifier maps are always those of the loaded node table */
    ghost predicate Valid()
      reads this
    {
      idMap == IdIndex(Ids(nodeTable)) && reverseIdMap == ReverseIndex(Ids(nodeTable))
    }

    function CurrentSnapshot(): Snapshot
      reads this
    {
      Snapshot(model, graphData, nodeTable, idMap, reverseIdMap)
    }

    /** Nothing loaded yet: the node table is still None and the maps empty */
    constructor ()
      ensures Valid()
      ensures model == None && graphData == None && nodeTable == [] && idMap == map[] && reverseIdMap == map[]
    {
      model := None;
      graphData := None;
      nodeTable := [];
      idMap := map[];
      reverseIdMap := map[];
    }

    /**
     * load_assets with its file reads passed in. The graph is assigned
     * first, then the table and both maps, then the network object, and
     * only then are its weights read, so a failed weight read leaves an
     * untrained network in place.
     */
    method LoadAssets(outcome: LoadOutcome) returns (ok: bool)
      requires Valid()
      modifies this
      ensures Valid()
      ensures ok <==> outcome.Loaded?
      ensures outcome.AssetsMissing? || outcome.GraphUnreadable? ==> CurrentSnapshot() == old(CurrentSnapshot())
      ensures outcome.TableUnreadable? ==>
        CurrentSnapshot() == old(CurrentSnapshot()).(graph := Some(outcome.graph))
      ensures outcome.WeightsUnreadable? ==>
        CurrentSnapshot() == LoadedSnapshot(outcome.untrained, outcome.graph, outcome.table)
      ensures outcome.Loaded? ==>
        CurrentSnapshot() == LoadedSnapshot(outcome.trained, outcome.graph, outcome.table)
    {
      match outcome
      case AssetsMissing =>
        return false;
      case GraphUnreadable =>
        return false;
      case TableUnreadable(g) =>
        graphData := Some(g);
        return false;
      case WeightsUnreadable(g, t, untrained) =>
        AssignTable(g, t);
        model := Some(untrained);
        return false;
      case Loaded(g, t, trained) =>
        AssignTable(g, t);
        model := Some(trained);
        return true;
    }

    /** Lines that run before the network object is created */
    method AssignTable(g: GraphData, t: seq<NodeRow>)
      modifies this
      ensures Valid()
      ensures model == old(model)
      ensures graphData == Some(g) && nodeTable == t
    {
      graphData := Some(g);
      nodeTable := t;
      var ids := Ids(t);
      idMap := IdIndex(ids);
      reverseIdMap := ReverseIndex(ids);
    }

    /**
     * analyze_transaction: reads the globals, clones the feature matrix into
     * a fresh array and overwrites one row of the clone; the shared graph is
     * never written.
     */
    method AnalyzeTransaction(tx: TransactionRequest) returns (r: Result<RiskResponse, HttpError>)
      ensures r == Analyze(CurrentSnapshot(), tx)
    {
      if model.None? || graphData.None? {
        return Err(NotLoaded);
      }
      var g := graphData.value;
      var srcLookup := Lookup(idMap, IntToDecimal(tx.sourceId));
      var tgtIdx := Lookup(idMap, IntToDecimal(tx.targetId)).GetOr(0);

      var srcIdx: nat, features: FeatureRow, outDegree: int, riskRatio: real;
      if srcLookup.Some? {
        if srcLookup.value >= |nodeTable| {
          return Err(InternalError);
        }
        var row := nodeTable[srcLookup.value];
        srcIdx := srcLookup.value;
        features := KnownFeatures(row, tx.amount);
        outDegree := row.outDegree + 1;
        riskRatio := row.riskRatio;
      } else {
        features := ColdStartFeatures(tx.amount);
        srcIdx, outDegree, riskRatio := 0, 1, 1.0;
      }

      var tempEdges := g.edgeIndex + [Edge(srcIdx, tgtIdx)];
      var tempX := new FeatureRow[|g.x|](k requires 0 <= k < |g.x| => g.x[k]);
      if srcIdx < tempX.Length {
        if |tempX[srcIdx]| != FeatureCount {
          return Err(InternalError);
        }
        tempX[srcIdx] := features;
      }
      assert tempX[..] == RequestMatrix(g.x, srcIdx, features);

      if !ForwardDefined(tempX[..], tempEdges, srcIdx) {
        return Err(InternalError);
      }
      var fraudRisk := model.value(tempX[..], tempEdges, srcIdx);

      var verdict := Safe;
      if fraudRisk > CriticalThreshold {
        verdict := Critical;
      } else if fraudRisk > SuspiciousThreshold {
        verdict := Suspicious;
      }

      var linked := LinkedAccounts(g.edgeIndex, srcIdx, reverseIdMap);
      r := Ok(RiskResponse(tx.sourceId, fraudRisk, verdict, ModelVersion, outDegree, riskRatio,
                           IntToDecimal(|idMap|) + " Nodes", linked));
    }
  }
}
