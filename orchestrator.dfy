/**
 * The visual-analytics pipeline: enriched nodes are scored by the anomaly
 * detector, the scores are merged back into the nodes by node id, the
 * merged nodes get snake_case feature names and go to the SHAP explainer,
 * and every result is posted to the backend. The backend calls, the
 * detector, the SHAP run and the text explainer are parameters; what the
 * pipeline posts is returned as a trace of effects.
 */
module Orchestrator {
  import opened Common

  /** A JSON scalar as the backend sends it; nested objects are not part of this model */
  datatype Value = Null | Bool(b: bool) | Int(i: int) | Num(r: real) | Str(s: string)

  /** A JSON object */
  type Dict = map<string, Value>

  /** dict.get(key, default) */
  function GetOr(d: Dict, key: string, default: Value): (v: Value)
    ensures key in d ==> v == d[key]
    ensures key !in d ==> v == default
  {
    if key in d then d[key] else default
  }

  /** dict.get(key): None when the key is absent */
  function Get(d: Dict, key: string): Value {
    GetOr(d, key, Null)
  }

  /** The backend's node id, or None when the node carries none */
  function ExtractNodeId(node: Dict): (id: Value)
    ensures "nodeId" in node ==> id == node["nodeId"]
    ensures "nodeId" !in node ==> id == Null
  {
    Get(node, "nodeId")
  }

  /** The seven snake_case names the SHAP step expects, each with its camelCase source */
  const SnakeToCamel: map<string, string> := map[
    "in_degree" := "inDegree",
    "out_degree" := "outDegree",
    "total_incoming" := "totalIncoming",
    "total_outgoing" := "totalOutgoing",
    "risk_ratio" := "riskRatio",
    "tx_velocity" := "txVelocity",
    "account_age_days" := "accountAgeDays"
  ]

  /**
   * The node with the snake_case keys added on top of it: every original
   * key stays, each snake_case key holds its camelCase counterpart's value
   * or None, and the added keys win over same-named original keys.
   */
  function NormalizeFeatures(node: Dict): (r: Dict)
    ensures r.Keys == node.Keys + SnakeToCamel.Keys
    ensures forall k :: k in node && k !in SnakeToCamel ==> r[k] == node[k]
    ensures forall k :: k in SnakeToCamel ==> r[k] == Get(node, SnakeToCamel[k])
  {
    map k | k in node.Keys + SnakeToCamel.Keys ::
      if k in SnakeToCamel then Get(node, SnakeToCamel[k]) else node[k]
  }

  /** Normalising twice gives what normalising once gives */
  lemma NormalizeIdempotent(node: Dict)
    ensures NormalizeFeatures(NormalizeFeatures(node)) == NormalizeFeatures(node)
  {
    var once := NormalizeFeatures(node);
    var twice := NormalizeFeatures(once);
    forall k | k in SnakeToCamel
      ensures twice[k] == once[k]
    {
      CamelSource(k);
    }
  }

  /** Python raises KeyError("node_id") when a detector score has no node id */
  datatype PipelineError = KeyError(key: string)

  /** {s["node_id"]: s for s in scores}: later scores overwrite earlier ones with the same id */
  function ScoreMap(scores: seq<Dict>): Result<map<Value, Dict>, PipelineError>
  {
    if scores == [] then Ok(map[])
    else
      var s := scores[|scores| - 1];
      match ScoreMap(scores[..|scores| - 1])
      case Err(e) => Err(e)
      case Ok(m) => if "node_id" in s then Ok(m[s["node_id"] := s]) else Err(KeyError("node_id"))
  }

  /** Building the map fails exactly when some score lacks a node id */
  lemma {:induction false} ScoreMapFails(scores: seq<Dict>)
    ensures ScoreMap(scores).Err? <==> exists i :: 0 <= i < |scores| && "node_id" !in scores[i]
    ensures ScoreMap(scores).Err? ==> ScoreMap(scores).error == KeyError("node_id")
  {
    if scores != [] {
      var init := scores[..|scores| - 1];
      ScoreMapFails(init);
      if exists i :: 0 <= i < |init| && "node_id" !in init[i] {
        var i :| 0 <= i < |init| && "node_id" !in init[i];
        assert scores[i] == init[i];
      }
    }
  }

  /** Each id maps to the last score that carries it, and nothing else is in the map */
  lemma {:induction false} ScoreMapLastWins(scores: seq<Dict>, i: nat)
    requires ScoreMap(scores).Ok?
    requires i < |scores| && "node_id" in scores[i]
    requires forall j :: i < j < |scores| && "node_id" in scores[j] ==> scores[j]["node_id"] != scores[i]["node_id"]
    ensures scores[i]["node_id"] in ScoreMap(scores).value
    ensures ScoreMap(scores).value[scores[i]["node_id"]] == scores[i]
  {
    var init := scores[..|scores| - 1];
    if i < |scores| - 1 {
      ScoreMapLastWins(init, i);
    }
  }

  /** The node ids the scores carry */
  function ScoreIds(scores: seq<Dict>): set<Value> {
    set s | s in scores && "node_id" in s :: s["node_id"]
  }

  /** The ids in the map are exactly the ids of the scores */
  lemma {:induction false} ScoreMapKeys(scores: seq<Dict>)
    requires ScoreMap(scores).Ok?
    ensures ScoreMap(scores).value.Keys == ScoreIds(scores)
  {
    if scores != [] {
      var init := scores[..|scores| - 1];
      var s := scores[|scores| - 1];
      ScoreMapKeys(init);
      assert scores == init + [s];
      assert ScoreIds(scores) == ScoreIds(init) + {s["node_id"]};
    }
  }

  predicate HasNodeId(node: Dict) {
    ExtractNodeId(node) != Null
  }

  /** The nodes the merge loop does not skip, in input order */
  function Kept(nodes: seq<Dict>): (r: seq<Dict>)
    ensures |r| <= |nodes|
    ensures forall n :: n in r ==> n in nodes && HasNodeId(n)
  {
    if nodes == [] then []
    else
      var n := nodes[|nodes| - 1];
      Kept(nodes[..|nodes| - 1]) + (if HasNodeId(n) then [n] else [])
  }

  /** No node with an id is dropped */
  lemma {:induction false} KeptComplete(nodes: seq<Dict>, n: Dict)
    requires n in nodes && HasNodeId(n)
    ensures n in Kept(nodes)
  {
    var init := nodes[..|nodes| - 1];
    if n != nodes[|nodes| - 1] {
      assert n in init;
      KeptComplete(init, n);
    }
  }

  /** Filtering commutes with concatenation, so the kept nodes keep their relative order */
  lemma {:induction false} KeptAppend(a: seq<Dict>, b: seq<Dict>)
    ensures Kept(a + b) == Kept(a) + Kept(b)
  {
    if b != [] {
      var binit := b[..|b| - 1];
      KeptAppend(a, binit);
      assert (a + b)[..|a + b| - 1] == a + binit;
    } else {
      assert a + b == a;
    }
  }

  /** A node that carries an id is kept alone, one without is dropped */
  lemma KeptSingle(n: Dict)
    ensures Kept([n]) == if HasNodeId(n) then [n] else []
  {
    assert [n][..0] == [];
  }

  /**
   * One merged node: the original keys stay, node_id is the extracted id,
   * anomaly_score is the matching score's value or None, and is_anomalous
   * is the matching score's value or 0.
   */
  function ScoreNode(node: Dict, scoreMap: map<Value, Dict>): (r: Dict)
    ensures r.Keys == node.Keys + {"node_id", "anomaly_score", "is_anomalous"}
    ensures forall k :: k in node && k !in {"node_id", "anomaly_score", "is_anomalous"} ==> r[k] == node[k]
    ensures r["node_id"] == ExtractNodeId(node)
    ensures var id := ExtractNodeId(node);
      && (id in scoreMap ==>
            r["anomaly_score"] == Get(scoreMap[id], "anomaly_score")
            && r["is_anomalous"] == GetOr(scoreMap[id], "is_anomalous", Int(0)))
      && (id !in scoreMap ==> r["anomaly_score"] == Null && r["is_anomalous"] == Int(0))
  {
    var id := ExtractNodeId(node);
    var score := if id in scoreMap then scoreMap[id] else map[];
    node["node_id" := id]["anomaly_score" := Get(score, "anomaly_score")]
        ["is_anomalous" := GetOr(score, "is_anomalous", Int(0))]
  }

  /** The merged nodes: every kept node, in order, with its score merged in */
  function Scored(nodes: seq<Dict>, scoreMap: map<Value, Dict>): seq<Dict> {
    var kept := Kept(nodes);
    seq(|kept|, i requires 0 <= i < |kept| => ScoreNode(kept[i], scoreMap))
  }

  /** The merge loop of the pipeline */
  method MergeScores(nodes: seq<Dict>, scoreMap: map<Value, Dict>) returns (scored: seq<Dict>)
    ensures scored == Scored(nodes, scoreMap)
    ensures |scored| == |Kept(nodes)|
    ensures forall i :: 0 <= i < |scored| ==> scored[i]["node_id"] != Null
  {
    scored := [];
    var i := 0;
    while i < |nodes|
      invariant 0 <= i <= |nodes|
      invariant scored == Scored(nodes[..i], scoreMap)
    {
      var node := nodes[i];
      assert nodes[..i + 1][..i] == nodes[..i];
      var nodeId := ExtractNodeId(node);
      if nodeId != Null {
        scored := scored + [ScoreNode(node, scoreMap)];
      }
      i := i + 1;
    }
    assert nodes[..|nodes|] == nodes;
    forall k | 0 <= k < |scored|
      ensures scored[k]["node_id"] != Null
    {
      assert Kept(nodes)[k] in Kept(nodes);
    }
  }

  /** The SHAP input: every merged node with snake_case features */
  function Normalized(scored: seq<Dict>): (r: seq<Dict>)
    ensures |r| == |scored|
    ensures forall i :: 0 <= i < |r| ==> r[i] == NormalizeFeatures(scored[i])
  {
    seq(|scored|, i requires 0 <= i < |scored| => NormalizeFeatures(scored[i]))
  }

  /** What the pipeline writes to the backend, in order */
  datatype Effect =
    | PostAnomalyScores(scores: seq<Dict>)
    | PostShapExplanations(shapData: seq<Dict>)
    | PostFraudExplanations(explanations: seq<Dict>)

  datatype PipelineRun = PipelineRun(effects: seq<Effect>, failure: Option<PipelineError>)

  type Stage = seq<Dict> -> seq<Dict>

  /**
   * run_full_pipeline on the fetched nodes. No nodes: nothing is scored or
   * posted. Otherwise the detector's scores are posted first; a score
   * without a node id stops the run with KeyError; otherwise the merged,
   * normalised nodes go to SHAP, and a non-empty SHAP result is posted
   * together with its text explanations.
   */
  method RunFullPipeline(nodes: seq<Dict>, detector: Stage, shap: Stage, explainer: Stage)
    returns (run: PipelineRun)
    ensures nodes == [] ==> run == PipelineRun([], None)
    ensures nodes != [] ==> |run.effects| >= 1 && run.effects[0] == PostAnomalyScores(detector(nodes))
    ensures nodes != [] && ScoreMap(detector(nodes)).Err? ==>
      run == PipelineRun([PostAnomalyScores(detector(nodes))], Some(KeyError("node_id")))
    ensures nodes != [] && ScoreMap(detector(nodes)).Ok? ==>
      var shapData := shap(Normalized(Scored(nodes, ScoreMap(detector(nodes)).value)));
      && run.failure == None
      && run.effects == [PostAnomalyScores(detector(nodes))] +
           (if shapData != [] then [PostShapExplanations(shapData), PostFraudExplanations(explainer(shapData))]
            else [])
  {
    if nodes == [] {
      return PipelineRun([], None);
    }
    var anomalyScores := detector(nodes);
    var effects := [PostAnomalyScores(anomalyScores)];
    var scoreMap := ScoreMap(anomalyScores);
    if scoreMap.Err? {
      ScoreMapFails(anomalyScores);
      return PipelineRun(effects, Some(scoreMap.error));
    }
    var scored := MergeScores(nodes, scoreMap.value);
    var shapData := shap(Normalized(scored));
    if shapData != [] {
      effects := effects + [PostShapExplanations(shapData)];
      var fraudExplanations := explainer(shapData);
      effects := effects + [PostFraudExplanations(fraudExplanations)];
    }
    run := PipelineRun(effects, None);
  }

  /** The camelCase name a snake_case feature is copied from is neither snake_case nor a merged key */
  lemma CamelSource(k: string)
    requires k in SnakeToCamel
    ensures SnakeToCamel[k] !in SnakeToCamel
    ensures SnakeToCamel[k] !in {"node_id", "anomaly_score", "is_anomalous"}
  {
    assert k in {"in_degree", "out_degree", "total_incoming", "total_outgoing",
                 "risk_ratio", "tx_velocity", "account_age_days"};
  }

  /** Merging a score in leaves the camelCase features as they were */
  lemma ScoreNodeKeepsFeatures(node: Dict, scoreMap: map<Value, Dict>)
    ensures forall f :: f in SnakeToCamel ==>
      Get(ScoreNode(node, scoreMap), SnakeToCamel[f]) == Get(node, SnakeToCamel[f])
  {
    forall f | f in SnakeToCamel
      ensures Get(ScoreNode(node, scoreMap), SnakeToCamel[f]) == Get(node, SnakeToCamel[f])
    {
      CamelSource(f);
    }
  }

  /**
   * What SHAP is given, node by node: the k-th kept node with its id as
   * node_id, its scores merged in, and its camelCase features copied to
   * snake_case names.
   */
  lemma ShapInput(nodes: seq<Dict>, scoreMap: map<Value, Dict>, k: nat)
    requires k < |Kept(nodes)|
    ensures var input := Normalized(Scored(nodes, scoreMap));
      var node := Kept(nodes)[k];
      && |input| == |Kept(nodes)|
      && input[k]["node_id"] == ExtractNodeId(node) != Null
      && (forall f :: f in SnakeToCamel ==> input[k][f] == Get(node, SnakeToCamel[f]))
  {
    var node := Kept(nodes)[k];
    assert node in Kept(nodes);
    var merged := ScoreNode(node, scoreMap);
    assert Scored(nodes, scoreMap)[k] == merged;
    ScoreNodeKeepsFeatures(node, scoreMap);
    assert "node_id" !in SnakeToCamel;
  }
}
