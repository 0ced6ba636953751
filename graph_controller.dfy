/**
 * The backend's graph endpoint: the stored transactions become one link per
 * transaction and one node per account, the node flagged with the
 * suspected-fraud mark of the last transaction that mentions the account.
 */
module GraphController {

  datatype Transaction = Transaction(sourceAccount: string, targetAccount: string,
                                     amount: real, suspectedFraud: bool)

  datatype GraphLink = GraphLink(source: string, target: string, amount: real)

  datatype GraphNode = GraphNode(id: string, fraud: bool)

  datatype GraphResponse = GraphResponse(nodes: seq<GraphNode>, links: seq<GraphLink>)

  function LinkOf(t: Transaction): GraphLink {
    GraphLink(t.sourceAccount, t.targetAccount, t.amount)
  }

  /** The link stream: one link per transaction, in transaction order */
  function Links(txs: seq<Transaction>): (links: seq<GraphLink>)
    ensures |links| == |txs|
    ensures forall i :: 0 <= i < |txs| ==>
      links[i].source == txs[i].sourceAccount && links[i].target == txs[i].targetAccount
      && links[i].amount == txs[i].amount
  {
    if txs == [] then [] else Links(txs[..|txs| - 1]) + [LinkOf(txs[|txs| - 1])]
  }

  predicate Mentions(t: Transaction, account: string) {
    t.sourceAccount == account || t.targetAccount == account
  }

  /** Every account that appears as a source or a target */
  function Accounts(txs: seq<Transaction>): set<string> {
    (set t | t in txs :: t.sourceAccount) + (set t | t in txs :: t.targetAccount)
  }

  /** The fraud map after the loop of puts: source first, then target, transaction by transaction */
  function FraudMap(txs: seq<Transaction>): map<string, bool>
  {
    if txs == [] then map[]
    else
      var t := txs[|txs| - 1];
      FraudMap(txs[..|txs| - 1])[t.sourceAccount := t.suspectedFraud][t.targetAccount := t.suspectedFraud]
  }

  /** The fraud map has a key for exactly the accounts the transactions mention */
  lemma {:induction false} FraudMapKeys(txs: seq<Transaction>)
    ensures FraudMap(txs).Keys == Accounts(txs)
  {
    if txs != [] {
      var init := txs[..|txs| - 1];
      var t := txs[|txs| - 1];
      FraudMapKeys(init);
      assert txs == init + [t];
      assert Accounts(txs) == Accounts(init) + {t.sourceAccount, t.targetAccount};
    }
  }

  /**
   * Last write wins: an account's flag is the suspected-fraud mark of the
   * last transaction, in list order, that names it as source or target.
   */
  lemma {:induction false} FraudMapLastMention(txs: seq<Transaction>, i: nat, account: string)
    requires i < |txs| && Mentions(txs[i], account)
    requires forall j :: i < j < |txs| ==> !Mentions(txs[j], account)
    ensures account in FraudMap(txs)
    ensures FraudMap(txs)[account] == txs[i].suspectedFraud
  {
    var init := txs[..|txs| - 1];
    if i < |txs| - 1 {
      FraudMapLastMention(init, i, account);
    }
  }

  /** At most two new nodes per transaction */
  lemma {:induction false} FraudMapSize(txs: seq<Transaction>)
    ensures |FraudMap(txs).Keys| <= 2 * |txs|
  {
    if txs != [] {
      var init := txs[..|txs| - 1];
      var t := txs[|txs| - 1];
      FraudMapSize(init);
      var k := FraudMap(init).Keys;
      assert FraudMap(txs).Keys == k + {t.sourceAccount} + {t.targetAccount};
      assert |k + {t.sourceAccount}| <= |k| + 1;
      assert |k + {t.sourceAccount} + {t.targetAccount}| <= |k + {t.sourceAccount}| + 1;
    }
  }

  /** The put loop that fills the fraud map */
  method BuildFraudMap(txs: seq<Transaction>) returns (fraudMap: map<string, bool>)
    ensures fraudMap == FraudMap(txs)
  {
    fraudMap := map[];
    var i := 0;
    while i < |txs|
      invariant 0 <= i <= |txs|
      invariant fraudMap == FraudMap(txs[..i])
    {
      var t := txs[i];
      assert txs[..i + 1][..i] == txs[..i];
      fraudMap := fraudMap[t.sourceAccount := t.suspectedFraud];
      fraudMap := fraudMap[t.targetAccount := t.suspectedFraud];
      i := i + 1;
    }
    assert txs[..|txs|] == txs;
  }

  /** The node list holds each key of the map once, with its value, in no particular order */
  predicate NodesOf(nodes: seq<GraphNode>, fraudMap: map<string, bool>) {
    && |nodes| == |fraudMap.Keys|
    && (forall n :: n in nodes ==> n.id in fraudMap && n.fraud == fraudMap[n.id])
    && (forall k :: k in fraudMap ==> GraphNode(k, fraudMap[k]) in nodes)
    && (forall i, j :: 0 <= i < j < |nodes| ==> nodes[i].id != nodes[j].id)
  }

  /** Streams the entries of a map into nodes; the order is whatever the iteration picks */
  method EntriesToNodes(fraudMap: map<string, bool>) returns (nodes: seq<GraphNode>)
    ensures NodesOf(nodes, fraudMap)
  {
    nodes := [];
    var rest := fraudMap.Keys;
    while rest != {}
      invariant rest <= fraudMap.Keys
      invariant |nodes| + |rest| == |fraudMap.Keys|
      invariant forall n :: n in nodes <==> n.id in fraudMap && n.id !in rest && n.fraud == fraudMap[n.id]
      invariant forall i, j :: 0 <= i < j < |nodes| ==> nodes[i].id != nodes[j].id
      decreases |rest|
    {
      var k :| k in rest;
      nodes := nodes + [GraphNode(k, fraudMap[k])];
      rest := rest - {k};
    }
  }

  /**
   * Any node list built from the fraud map names exactly the mentioned
   * accounts, at most two per transaction, and none for no transactions.
   */
  lemma NodesCoverAccounts(txs: seq<Transaction>, nodes: seq<GraphNode>)
    requires NodesOf(nodes, FraudMap(txs))
    ensures forall a :: a in Accounts(txs) <==> exists n :: n in nodes && n.id == a
    ensures |nodes| <= 2 * |txs|
    ensures txs == [] ==> nodes == []
  {
    var fraudMap := FraudMap(txs);
    FraudMapKeys(txs);
    FraudMapSize(txs);
    forall a | a in fraudMap.Keys
      ensures exists n :: n in nodes && n.id == a
    {
      assert GraphNode(a, fraudMap[a]) in nodes;
    }
  }

  /**
   * GET /api/graph: one link per transaction in order, and one node per
   * mentioned account, flagged by the last transaction that mentions it.
   */
  method GetGraph(txs: seq<Transaction>) returns (response: GraphResponse)
    ensures response.links == Links(txs)
    ensures NodesOf(response.nodes, FraudMap(txs))
  {
    var links := Links(txs);
    var fraudMap := BuildFraudMap(txs);
    var nodes := EntriesToNodes(fraudMap);
    response := GraphResponse(nodes, links);
  }
}
