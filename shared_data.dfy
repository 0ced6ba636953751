/**
 * The persisted artifacts the feature-engineering job writes into the shared
 * data directory and the inference service reads back: the node table
 * (nodes.csv) and the processed graph (processed_graph.pt), plus the
 * identifier-to-row index that both sides build from the node table.
 */
module SharedData {

  /** Number of columns of a feature row: account_age_days, balance, in_out_ratio, pagerank, tx_velocity */
  const FeatureCount: nat := 5

  /** One row of nodes.csv after feature engineering has refreshed it */
  datatype NodeRow = NodeRow(
    nodeId: string,
    accountAgeDays: real,
    balance: real,
    isFraud: int,
    outDegree: nat,
    riskRatio: real,
    txVelocity: nat,
    pagerank: real,
    inOutRatio: real)

  type FeatureRow = seq<real>

  /** One column of the edge_index tensor: a directed edge between two row indices */
  datatype Edge = Edge(src: nat, dst: nat)

  /** The torch_geometric Data object: feature matrix x, edge_index and labels y */
  datatype GraphData = GraphData(x: seq<FeatureRow>, edgeIndex: seq<Edge>, y: seq<int>)

  /** Every edge endpoint names an existing row */
  predicate EndpointsInRange(edges: seq<Edge>, n: nat) {
    forall k :: 0 <= k < |edges| ==> edges[k].src < n && edges[k].dst < n
  }

  /** Every feature row has the width the scoring model was trained on */
  predicate RowsHaveWidth(x: seq<FeatureRow>, w: nat) {
    forall k :: 0 <= k < |x| ==> |x[k]| == w
  }

  predicate Distinct<T(==)>(s: seq<T>) {
    forall i, j :: 0 <= i < j < |s| ==> s[i] != s[j]
  }

  function Ids(rows: seq<NodeRow>): (ids: seq<string>)
    ensures |ids| == |rows|
    ensures forall k :: 0 <= k < |rows| ==> ids[k] == rows[k].nodeId
  {
    seq(|rows|, k requires 0 <= k < |rows| => rows[k].nodeId)
  }

  /**
   * The dictionary {id: idx for idx, id in enumerate(ids)}: every identifier
   * maps to a row index holding it, and on a repeated identifier the last
   * row wins.
   */
  function IdIndex(ids: seq<string>): (m: map<string, nat>)
    ensures m.Keys == set k | 0 <= k < |ids| :: ids[k]
    ensures forall id :: id in m ==> m[id] < |ids| && ids[m[id]] == id
    ensures forall id, k :: id in m && 0 <= k < |ids| && ids[k] == id ==> k <= m[id]
  {
    if ids == [] then map[]
    else
      var prev := ids[..|ids| - 1];
      assert forall k :: 0 <= k < |prev| ==> prev[k] == ids[k];
      IdIndex(prev)[ids[|ids| - 1] := |ids| - 1]
  }

  /** The dictionary {idx: id for idx, id in enumerate(ids)} */
  function ReverseIndex(ids: seq<string>): (m: map<nat, string>)
    ensures forall k: nat :: k in m <==> k < |ids|
    ensures forall k :: k in m ==> m[k] == ids[k]
  {
    map k | 0 <= k < |ids| :: ids[k]
  }

  /** With unique identifiers the index is dense: the k-th identifier gets index k */
  lemma IdIndexDense(ids: seq<string>)
    requires Distinct(ids)
    ensures forall k :: 0 <= k < |ids| ==> ids[k] in IdIndex(ids) && IdIndex(ids)[ids[k]] == k
  {
    var m := IdIndex(ids);
    forall k | 0 <= k < |ids|
      ensures ids[k] in m && m[ids[k]] == k
    {
      assert ids[k] in m.Keys;
      assert ids[m[ids[k]]] == ids[k];
    }
  }

  /**
   * The two dictionaries are built from the same rows, so mapping an
   * identifier to its index and back gives the identifier; with unique
   * identifiers mapping an index to its identifier and back gives the index.
   */
  lemma IndexesAreInverse(ids: seq<string>)
    ensures forall id :: id in IdIndex(ids) ==>
      IdIndex(ids)[id] in ReverseIndex(ids) && ReverseIndex(ids)[IdIndex(ids)[id]] == id
    ensures Distinct(ids) ==> forall k :: 0 <= k < |ids| ==>
      ReverseIndex(ids)[k] in IdIndex(ids) && IdIndex(ids)[ReverseIndex(ids)[k]] == k
  {
    if Distinct(ids) {
      IdIndexDense(ids);
    }
  }
}
