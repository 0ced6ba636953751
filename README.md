# Mule Hunter core in Dafny

A model of the decision-making core of Mule Hunter, a fraud-detection platform for money-mule accounts. The model covers seven parts, one module each, plus two shared modules:

- **Inference** (`inference.dfy`): the per-request analysis of the AI engine.
  - It resolves a source and a target account through the identifier map.
  - It builds the source's five-feature row, either from its persisted profile or from cold-start defaults.
  - It copies the feature matrix and overwrites one row of the copy.
  - It appends one edge to a copy of the edge list.
  - It scores the source row, applies the verdict thresholds and lists up to three linked accounts.
  - Its service state (the loaded model, the processed graph, the node table and both identifier maps) is a class.
- **FeatureEngineering** (`feature_engineering.dfy`): the offline job that produces those assets.
  - It builds the transaction DiGraph.
  - It computes per-node metrics (out-degree, transaction velocity).
  - It merges the metrics into the node table on node_id. Every table row has its own metrics entry, so the left merge never fills a row with missing values.
  - Nodes get dense indices in table order, and edges with an endpoint outside the table are dropped.
  - It builds the feature matrix and the labels.
- **SharedData** (`shared_data.dfy`): the node-table row and the processed graph, which the two modules above share, and the identifier maps built from the table.
- **Blockchain** (`blockchain.dfy`): the forensic ledger. Fraud logs queue up and are sealed ten at a time, or on demand, into hash-linked blocks.
- **BotDetection** (`bot_detection.dfy`): the JA3 fingerprint counter, with threshold 50, a block list, and aggregate statistics.
- **GraphController** (`graph_controller.dfy`): the backend's graph endpoint. It gives one link per transaction and one node per account, shown with the fraud mark of the last transaction that mentions the account.
- **Orchestrator** (`orchestrator.dfy`): the visual-analytics pipeline.
  - It extracts node ids and merges anomaly scores by node id.
  - It copies the camelCase feature names to snake_case.
  - It returns the sequence of backend writes it would make, as a trace.
- **ShapToText** (`shap_to_text.dfy`): turns SHAP top factors into positive or negative reason texts.
- **Common** (`common.dfy`): Option, Result, dictionary lookup, and Python's `str()` of an int.

Everything that is I/O, a clock, a trained network or a library call is a parameter:
- the GNN forward pass is a function returning a probability in [0, 1];
- the block hash is a function of index, logs and previous hash;
- the clock reading is an argument of `IsBot`;
- PageRank and the money-flow ratio are given maps and functions;
- the anomaly detector, the SHAP run and the text explainer are functions;
- each file-loading result of `load_assets` is a `LoadOutcome` value.

Where the state lives in mutable objects or module globals, the model is a class whose methods modify its fields:
- the inference service's globals;
- `Blockchain`;
- `BotDetectionService`.

Each such method is proved against specification functions of the old state. Loops in the source are loops here, each proved against a recursive specification function:
- the DiGraph edge loop and the metrics loop;
- the fraud-map `put` loop;
- the score merge loop;
- the two reason loops.

### Behaviour kept as written

- An unknown target id resolves to index 0, which is a real node (`Inference.Extend`).
- An unknown account gets no fresh row. It is scored as index 0 with cold-start features, so row 0 of the request's copy is overwritten (`Inference.ColdStart`).
- Linked accounts are read from the base edge list, not the extended one. The injected edge therefore never shows up among them (`Inference.LinkedIgnoresTarget`, `Inference.InjectedNeighbor`). So:
  - the injected self-edge of a self-loop request is never listed; the source appears among its linked accounts only if the base edge list already holds an edge from it to itself;
  - an unknown target adds no entry.
- Three shape errors raise, and the global exception handler answers 500 for each (`Inference.Extend`, `Inference.Analyze`, `Inference.NarrowRowFails`):
  - a known source whose identifier maps past the end of the node table makes `iloc` raise;
  - assigning the five-feature row into a matrix row of another width raises;
  - so does an out-of-shape forward pass.

## Model

| member | source | states |
|---|---|---|
| SharedData.IdIndex | ai-engine/inference_service.py:89 | id_map has exactly the table's ids as keys; each maps to a row holding that id, the last such row when ids repeat |
| SharedData.ReverseIndex | ai-engine/inference_service.py:90 | reverse_id_map is defined on exactly the indices 0..N-1 and maps each to its row's id |
| SharedData.IdIndexDense | ai-engine/feature_engineering.py:66 | with unique ids, the node at table position k gets index k |
| SharedData.IndexesAreInverse | ai-engine/inference_service.py:89-90 | reverse_id_map after id_map is the identity on ids; with unique ids, id_map after reverse_id_map is the identity on 0..N-1 |
| Inference.VerdictFor | ai-engine/inference_service.py:170-172 | CRITICAL (MULE) iff p > 0.85, SUSPICIOUS iff 0.6 < p <= 0.85, SAFE iff p <= 0.6 |
| Inference.VerdictMonotone | ai-engine/inference_service.py:170-172 | a higher probability never gives a milder verdict |
| Inference.VerdictBoundaries | ai-engine/inference_service.py:170-172 | exactly 0.85 is SUSPICIOUS and exactly 0.6 is SAFE |
| Inference.RequestMatrix | ai-engine/inference_service.py:163-165 | the copy has the base's row count; every row other than src is the base row; row src is replaced only when src is a row |
| Inference.Extend | ai-engine/inference_service.py:137-165 | fails (500) exactly when the source's index is past the node table, or when the source's index is a row of the matrix that is not 5 wide; otherwise src is id_map[source] or 0 and the features are 5 wide; the target index is id_map[target] or 0; the edge list is the base list plus exactly one edge (src, tgt); only row src of the copy differs |
| Inference.NarrowRowFails | ai-engine/inference_service.py:163-165 | a one-row graph whose row has 4 columns answers 500 to every request, since the 5-feature row does not fit |
| Inference.ColdStart | ai-engine/inference_service.py:153-156 | an unknown source succeeds exactly when row 0, if present, is 5 wide; it then gets index 0, features [30.0, amount/1000, 1.0, 0.0001, 1.0], out_degree 1 and risk ratio 1.0; row 0 of the copy is overwritten and the injected edge leaves row 0 |
| Inference.KnownSource | ai-engine/inference_service.py:142-152 | a known source within the table succeeds exactly when its matrix row, if present, is 5 wide; it then keeps its index and gets features [account_age_days, amount/1000, in_out_ratio, pagerank, tx_velocity + 1]; out_degree is the persisted one plus 1 |
| Inference.NeighborsAppend | ai-engine/inference_service.py:175-176 | neighbour extraction commutes with concatenation, so edge-list order is kept |
| Inference.NeighborsMembership | ai-engine/inference_service.py:175-176 | v is a neighbour of src iff the edge list holds Edge(src, v) |
| Inference.LinkedAccountsShape | ai-engine/inference_service.py:175-177 | at most 3 labels, the first min(3, #neighbours) neighbours in order, each "Card_" + its identifier or "Card_Unknown" |
| Inference.InjectedNeighbor | ai-engine/inference_service.py:159-160 | in the extended list, src's neighbours are its base neighbours followed by the injected target |
| Inference.LinkedIgnoresTarget | ai-engine/inference_service.py:175-177 | two answered requests from the same source list the same linked accounts, whatever their targets |
| Inference.NotLoadedFails | ai-engine/inference_service.py:134-135 | without the model or the graph, every request fails with 503 "AI Brain is not loaded." |
| Inference.Analyze | ai-engine/inference_service.py:132-190 | 503 exactly when the model or the graph is missing, else 500 or an answer; an answer carries the request's source id, a score in [0, 1], the threshold verdict of that score, the model version, "<len(id_map)> Nodes" and at most 3 linked accounts |
| Inference.ServingAnswers | ai-engine/inference_service.py:132-190 | on assets loaded consistently, every request is answered; the score is the model's output for the source row of the extended copy, the verdict its threshold class, the reported out_degree and risk ratio are those of the request graph (the persisted out_degree + 1 and risk ratio for a known source, 1 and 1.0 for a cold start, by KnownSource and ColdStart), and the linked accounts come from the base edges |
| Inference.ProcessedAssetsServe | ai-engine/inference_service.py:84-90 | the graph and table the feature-engineering job writes, once loaded with a model, answer every request |
| Inference.ServiceServes | ai-engine/inference_service.py:66-101 | a service whose loaded graph agrees with its table (same row count, 5-wide rows, in-range edges) and has a model is serving and answers every request |
| Inference.InferenceService.constructor | ai-engine/inference_service.py:67-71 | before loading, there is no model, no graph, no table and both maps are empty |
| Inference.InferenceService.AssignTable | ai-engine/inference_service.py:84-90 | the graph and the table are assigned and both maps are rebuilt from the table; the model is unchanged |
| Inference.InferenceService.LoadAssets | ai-engine/inference_service.py:74-101 | returns true only on a complete load; each failure point leaves exactly the globals assigned before it; the maps always match the loaded table |
| Inference.InferenceService.AnalyzeTransaction | ai-engine/inference_service.py:132-190 | the answer equals the analysis of the current globals, computed over a cloned array; the shared graph is not written |
| FeatureEngineering.EndpointsMembership | ai-engine/feature_engineering.py:26-28 | an account is a DiGraph endpoint iff some transaction names it as source or target |
| FeatureEngineering.SuccessorsMembership | ai-engine/feature_engineering.py:27-28 | v is a successor of u iff some transaction goes from u to v |
| FeatureEngineering.BuildDiGraph | ai-engine/feature_engineering.py:22-28 | the graph's nodes are the table ids plus every transaction endpoint; each node's successors are exactly the targets of its transactions |
| FeatureEngineering.VelocityCountsSources | ai-engine/feature_engineering.py:44 | tx_velocity is the number of transactions whose source is the node, duplicates included |
| FeatureEngineering.OutDegreeAtMostVelocity | ai-engine/feature_engineering.py:27-44 | out_degree counts distinct targets, so it never exceeds tx_velocity |
| FeatureEngineering.ComputeMetrics | ai-engine/feature_engineering.py:34-52 | one metrics entry per table row, in table order, carrying that id's out-degree, velocity and pagerank |
| FeatureEngineering.MatchesSingle | ai-engine/feature_engineering.py:57 | a left row with exactly one matching metrics row merges into exactly one combined row |
| FeatureEngineering.MatchesNone | ai-engine/feature_engineering.py:57 | helper of MatchesSingle: the entries after the matching one contribute nothing to the merged rows |
| FeatureEngineering.MatchesFound | ai-engine/feature_engineering.py:57 | a metrics entry with the row's node id gives the row a merged row |
| FeatureEngineering.EveryNodeMatched | ai-engine/feature_engineering.py:34-57 | every table row, duplicates included, finds its own metrics entry, so the left merge never fills missing values |
| FeatureEngineering.JoinOneToOne | ai-engine/feature_engineering.py:55-57 | with unique ids, merging the table with its own metrics keeps one row per node, in order |
| FeatureEngineering.RefreshedTableRows | ai-engine/feature_engineering.py:34-60 | with unique ids, the rewritten table has one row per node, keeps the node's own columns (node_id, account_age_days, balance, is_fraud), and carries out_degree, tx_velocity, pagerank (0 when absent), risk_ratio from the flow ratio and in_out_ratio = risk_ratio, with out_degree <= tx_velocity |
| FeatureEngineering.EdgeIndexAppend | ai-engine/feature_engineering.py:67-71 | filtering commutes with concatenation, so kept edges keep transaction order |
| FeatureEngineering.EdgeIndexMembership | ai-engine/feature_engineering.py:67-71 | an edge is kept iff both endpoints are in the mapping, and it carries their indices |
| FeatureEngineering.EdgeIndexInRange | ai-engine/feature_engineering.py:66-71 | at most one edge per transaction, and every kept endpoint is < N |
| FeatureEngineering.FeatureMatrix | ai-engine/feature_engineering.py:74-75 | one row per node in mapping order, with columns [account_age_days, balance, in_out_ratio, pagerank, tx_velocity] |
| FeatureEngineering.Labels | ai-engine/feature_engineering.py:76 | one label per node, its is_fraud value |
| FeatureEngineering.ProcessedGraphWellFormed | ai-engine/feature_engineering.py:66-78 | x has one 5-column row per node, y one label per node, and every edge endpoint is a row |
| FeatureEngineering.BuildGraphData | ai-engine/feature_engineering.py:21-78 | the job's outputs are the refreshed table and the processed graph over it, with 5-column rows and in-range edges |
| Blockchain.SealPreserves | security-forensics/src/main/java/securityforensics/blockchain/Blockchain.java:22-27 | a sealed block has index = old chain length, the pending logs in order and the previous hash; the chain stays well formed and existing blocks are unchanged |
| Blockchain.LogCountIsAllLogs | security-forensics/src/main/java/securityforensics/blockchain/Blockchain.java:22-27 | summing the per-block log counts gives the length of all sealed logs |
| Blockchain.Blockchain.constructor | security-forensics/src/main/java/securityforensics/blockchain/Blockchain.java:9-11 | a new chain holds only the genesis block: index 0, no logs, previous hash "0" |
| Blockchain.Blockchain.AddLog | security-forensics/src/main/java/securityforensics/blockchain/Blockchain.java:13-20 | appends the log; the tenth pending log seals all ten and clears pending; fewer than 10 remain pending; the chain only grows |
| Blockchain.Blockchain.CreateBlock | security-forensics/src/main/java/securityforensics/blockchain/Blockchain.java:22-28 | the chain gains one block sealing the pending logs, and pending is cleared |
| Blockchain.Blockchain.ForceBlock | security-forensics/src/main/java/securityforensics/blockchain/Blockchain.java:30-34 | with nothing pending nothing changes; otherwise all pending logs are sealed into one block |
| Blockchain.Blockchain.GetPendingCount | security-forensics/src/main/java/securityforensics/blockchain/Blockchain.java:36-38 | returns the pending size, always below 10, and changes nothing |
| Blockchain.Conservation | security-forensics/src/main/java/securityforensics/blockchain/Blockchain.java:13-28 | logs over all blocks plus pending logs equal the logs ever added |
| BotDetection.BotDetectionService.constructor | security-forensics/src/main/java/securityforensics/ja3/BotDetectionService.java:11-13 | a new service has no counts, no first-seen times and an empty block list |
| BotDetection.SumValuesRemove | security-forensics/src/main/java/securityforensics/ja3/BotDetectionService.java:32 | the sum of the counts does not depend on the order the entries are visited |
| BotDetection.CallsPositive | security-forensics/src/main/java/securityforensics/ja3/BotDetectionService.java:17 | a fingerprint has a positive call count iff it was passed to isBot |
| BotDetection.IsBotStep | security-forensics/src/main/java/securityforensics/ja3/BotDetectionService.java:15-26 | one call keeps every count equal to its number of calls, the block list equal to the fingerprints over 50, and the sum of counts equal to the number of calls |
| BotDetection.BotDetectionService.IsBot | security-forensics/src/main/java/securityforensics/ja3/BotDetectionService.java:15-26 | adds exactly 1 to this fingerprint's count and changes no other; sets firstSeen only on the first call; returns true iff this is call 51 or later, and then blocks it; the block list only grows |
| BotDetection.BotDetectionService.GetStats | security-forensics/src/main/java/securityforensics/ja3/BotDetectionService.java:28-35 | uniqueFingerprints is the number of distinct fingerprints seen, blockedBots the number over 50, totalRequests the number of isBot calls, and details the counts |
| GraphController.Links | backend/src/main/java/com/mulehunter/backend/controller/GraphController.java:37-43 | one link per transaction, in order, carrying its source, target and amount |
| GraphController.FraudMapKeys | backend/src/main/java/com/mulehunter/backend/controller/GraphController.java:46-51 | the fraud map's keys are exactly the accounts the transactions mention |
| GraphController.FraudMapLastMention | backend/src/main/java/com/mulehunter/backend/controller/GraphController.java:48-51 | an account's flag is the suspected-fraud mark of the last transaction that mentions it |
| GraphController.FraudMapSize | backend/src/main/java/com/mulehunter/backend/controller/GraphController.java:46-51 | at most two accounts per transaction |
| GraphController.BuildFraudMap | backend/src/main/java/com/mulehunter/backend/controller/GraphController.java:46-51 | the put loop computes the last-write-wins fraud map |
| GraphController.EntriesToNodes | backend/src/main/java/com/mulehunter/backend/controller/GraphController.java:53-59 | every map entry becomes exactly one node carrying its key and value, in some order |
| GraphController.NodesCoverAccounts | backend/src/main/java/com/mulehunter/backend/controller/GraphController.java:46-59 | the node ids are exactly the mentioned accounts; at most 2 * #transactions nodes; no transactions gives no nodes |
| GraphController.GetGraph | backend/src/main/java/com/mulehunter/backend/controller/GraphController.java:37-61 | the response holds the links as above and one node per fraud-map entry, each id once, with last-write-wins flags, in unspecified order |
| Orchestrator.ExtractNodeId | visual-analytics/app/services/orchestrator.py:15-19 | the node's nodeId, or None when the key is absent |
| Orchestrator.NormalizeFeatures | visual-analytics/app/services/orchestrator.py:21-35 | keeps every original key; adds the 7 snake_case keys, each copied from its camelCase key or None; the added keys win over same-named originals |
| Orchestrator.NormalizeIdempotent | visual-analytics/app/services/orchestrator.py:21-35 | normalising twice is normalising once |
| Orchestrator.ScoreMapFails | visual-analytics/app/services/orchestrator.py:60 | building score_map fails with KeyError exactly when some score lacks node_id |
| Orchestrator.ScoreMapLastWins | visual-analytics/app/services/orchestrator.py:60 | each id maps to the last score carrying it |
| Orchestrator.ScoreMapKeys | visual-analytics/app/services/orchestrator.py:60 | score_map's keys are exactly the scores' node ids |
| Orchestrator.Kept | visual-analytics/app/services/orchestrator.py:64-68 | the merge keeps only nodes with a non-None nodeId, all taken from the input |
| Orchestrator.KeptComplete | visual-analytics/app/services/orchestrator.py:64-68 | no node with a nodeId is dropped |
| Orchestrator.KeptAppend | visual-analytics/app/services/orchestrator.py:64-68 | filtering commutes with concatenation, so input order is kept |
| Orchestrator.KeptSingle | visual-analytics/app/services/orchestrator.py:64-68 | a node with an id is kept and one without is skipped |
| Orchestrator.ScoreNode | visual-analytics/app/services/orchestrator.py:70-77 | original keys stay; node_id is the extracted id; anomaly_score is the matching score's value or None; is_anomalous is the matching score's value or 0 |
| Orchestrator.MergeScores | visual-analytics/app/services/orchestrator.py:62-77 | the loop yields one merged node per kept node, in order, each with a non-None node_id |
| Orchestrator.ShapInput | visual-analytics/app/services/orchestrator.py:81-83 | SHAP gets one entry per kept node, carrying that node's id and its camelCase features under snake_case names |
| Orchestrator.RunFullPipeline | visual-analytics/app/services/orchestrator.py:38-95 | no nodes gives no writes at all; otherwise the anomaly scores are posted first; a score without node_id stops the run; a non-empty SHAP result is posted with its text explanations |
| ShapToText.ReasonsBound | visual-analytics/explainability/shap_to_text.py:22-32 | never more reasons than factors, and as many exactly when every feature has a text |
| ShapToText.ReasonsAppend | visual-analytics/explainability/shap_to_text.py:22-32 | reasons keep factor order |
| ShapToText.ReasonsSingle | visual-analytics/explainability/shap_to_text.py:26-31 | an explained factor gives its positive text iff impact > 0, so impact 0 gives the negative text; an unexplained factor gives nothing |
| ShapToText.ReasonsAllExplained | visual-analytics/explainability/shap_to_text.py:22-32 | when every feature is explained, reason i is the text of factor i |
| ShapToText.CollectReasons | visual-analytics/explainability/shap_to_text.py:20-32 | the inner loop computes the node's reasons |
| ShapToText.GenerateHumanExplanations | visual-analytics/explainability/shap_to_text.py:16-37 | one explanation per SHAP node, in the same order, with the same node_id and that node's reasons |
| Common.IntToDecimal | ai-engine/inference_service.py:137 | str(int): at least one character, and a leading '-' exactly for negative numbers |
| Common.NatToDecimalRoundTrip | ai-engine/inference_service.py:137 | reading the decimal digits of str(n) back gives n |
| Common.NatToDecimalInjective | ai-engine/inference_service.py:137 | two naturals with the same rendering are equal |
| Common.IntToDecimalInjective | ai-engine/inference_service.py:137-139 | str is injective on ints, so two different account ids never share an id_map key |

## Left out

**Numerics and rounding**
- The MuleSAGE forward pass (`SAGEConv`, ReLU, log-softmax and `exp`) is floating-point torch code. It is a function-valued parameter that returns a probability and is defined on well-shaped inputs only.
- The float parts of the response are not modelled: `round(...)`, `ja3_detected` and `unsupervised_score`. The model's response reports the unrounded score and risk ratio.
- PageRank and the money-flow ratio are given as a map and a function. This covers the ratio's 1e-5 epsilon and `round(ratio, 4)`.
- float32 storage of the feature tensors is not modelled. Features are reals.

**I/O and file loading**
- CSV and tensor files are not read or written. `torch.save`, `to_csv`, the JSON files of the SHAP text step and every log line are left out.
- `load_assets` is not modelled line by line. Its file-existence checks, `torch.load` and `pd.read_csv` become the `LoadOutcome` given to `LoadAssets`. A schema error between loading the table and building the maps is one of its failure points and is not modelled separately.

**Concurrency and clocks**
- Concurrency is not modelled:
  - `synchronized` on `Blockchain`;
  - the `ConcurrentHashMap`s of `BotDetectionService`;
  - the async pipeline of the orchestrator.

  All three run sequentially in the model.
- The clock reading of `isBot` is the `now` argument.

**Integer widths and Java exceptions**
- BotDetection.BotDetectionService.IsBot: counts are unbounded integers. Java's 32-bit wrap-around of a hit count after 2^31 calls is not modelled.
- BotDetection.BotDetectionService.GetStats: the sum of counts is unbounded. Java's `int` sum can overflow.
- BotDetection.BotDetectionService.GetStats: details is a copy of the counts at the time of the call. Java puts the live `hitCounter` into the map, so later `isBot` calls show through it; the model does not capture that aliasing.
- Blockchain.Blockchain.CreateBlock: the hash is the constructor's hash function. The `substring(0, 16)` in the log line, which would throw for a hash shorter than 16 characters, is not modelled.

**Python value semantics**
- Orchestrator.ScoreMap: ids are compared as JSON values. Python's dict treats `1`, `1.0` and `True` as the same key; the model does not.
- Orchestrator: JSON values are scalars. Nested objects and lists inside a node are not represented.
- ShapToText.GenerateHumanExplanations: the input is typed. A missing `node_id`, `top_factors`, `feature` or `impact` key raises in Python and is not modelled, and neither is a non-numeric impact.

**Parts of the pipeline**
- FeatureEngineering.Join: an inner join that keeps each row's matches. It equals pandas' left merge because every node id has a metrics entry (`FeatureEngineering.EveryNodeMatched`); the missing-value row a left merge gives an unmatched row is not modelled.
- FeatureEngineering.RefreshedTableRows: the one-row-per-node claim assumes unique node ids. With duplicates, the left merge multiplies rows; `Join` models that case but no lemma describes it.
- The feature-engineering job drops stale metric columns before the merge. The model's table rows are rebuilt from the node inputs, which covers that drop.
- Orchestrator.RunFullPipeline: the detector and SHAP stages never fail in the model. A missing required column with at least 20 nodes (`MIN_SAMPLES`) makes `run_shap` raise `ValueError` and stop the run before the SHAP post; the trace cannot show that.
- The detector, the SHAP run and the text explainer are function parameters of `RunFullPipeline`. app/services/explainability/shap_to_text.py, the explainer the pipeline imports, is not part of this model.
- The backend client calls and the request for enriched nodes are not modelled. The fetched nodes are an argument, and the writes are the returned trace of effects.
