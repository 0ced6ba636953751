/**
 * Turning SHAP explanations into human-readable reasons: each top factor
 * whose feature has an explanation text contributes its "positive" text
 * when the impact is above zero and its "negative" text otherwise. The
 * explanation texts are a parameter; reading and writing the JSON files is
 * not part of this model.
 */
module ShapToText {

  datatype Factor = Factor(feature: string, impact: real)

  datatype ShapNode = ShapNode(nodeId: int, topFactors: seq<Factor>)

  /** The two texts an explanation entry holds for one feature */
  datatype ReasonText = ReasonText(positive: string, negative: string)

  datatype Explanation = Explanation(nodeId: int, reasons: seq<string>)

  /** The text a factor contributes when its feature has an entry */
  function ReasonOf(f: Factor, text: ReasonText): string {
    if f.impact > 0.0 then text.positive else text.negative
  }

  /** The reasons of one node: its explained factors' texts, in factor order */
  function Reasons(factors: seq<Factor>, texts: map<string, ReasonText>): seq<string>
  {
    if factors == [] then []
    else
      var f := factors[|factors| - 1];
      Reasons(factors[..|factors| - 1], texts) +
        (if f.feature in texts then [ReasonOf(f, texts[f.feature])] else [])
  }

  /** Unexplained factors are skipped, so there are never more reasons than factors */
  lemma {:induction false} ReasonsBound(factors: seq<Factor>, texts: map<string, ReasonText>)
    ensures |Reasons(factors, texts)| <= |factors|
    ensures |Reasons(factors, texts)| == |factors| <==> forall i :: 0 <= i < |factors| ==> factors[i].feature in texts
  {
    if factors != [] {
      var init := factors[..|factors| - 1];
      ReasonsBound(init, texts);
      if forall i :: 0 <= i < |factors| ==> factors[i].feature in texts {
        assert forall i :: 0 <= i < |init| ==> init[i].feature in texts by {
          forall i | 0 <= i < |init| ensures init[i].feature in texts {
            assert init[i] == factors[i];
          }
        }
      }
    }
  }

  /** Reasons keep the order of the factors: the reasons of a concatenation concatenate */
  lemma {:induction false} ReasonsAppend(a: seq<Factor>, b: seq<Factor>, texts: map<string, ReasonText>)
    ensures Reasons(a + b, texts) == Reasons(a, texts) + Reasons(b, texts)
  {
    if b != [] {
      var binit := b[..|b| - 1];
      ReasonsAppend(a, binit, texts);
      assert (a + b)[..|a + b| - 1] == a + binit;
    } else {
      assert a + b == a;
    }
  }

  /**
   * The sign rule for one factor: an explained feature gives its positive
   * text exactly when the impact is above zero, so an impact of exactly
   * zero gives the negative text; an unexplained one gives nothing.
   */
  lemma ReasonsSingle(f: Factor, texts: map<string, ReasonText>)
    ensures f.feature !in texts ==> Reasons([f], texts) == []
    ensures f.feature in texts && f.impact > 0.0 ==> Reasons([f], texts) == [texts[f.feature].positive]
    ensures f.feature in texts && f.impact <= 0.0 ==> Reasons([f], texts) == [texts[f.feature].negative]
  {
    assert [f][..0] == [];
  }

  /** When every feature is explained, reason i is the text of factor i */
  lemma {:induction false} ReasonsAllExplained(factors: seq<Factor>, texts: map<string, ReasonText>)
    requires forall i :: 0 <= i < |factors| ==> factors[i].feature in texts
    ensures |Reasons(factors, texts)| == |factors|
    ensures forall i :: 0 <= i < |factors| ==>
      Reasons(factors, texts)[i] == ReasonOf(factors[i], texts[factors[i].feature])
  {
    if factors != [] {
      var init := factors[..|factors| - 1];
      assert forall i :: 0 <= i < |init| ==> init[i] == factors[i];
      ReasonsAllExplained(init, texts);
    }
  }

  /** The explanation of one SHAP node: its id and its reasons */
  function ExplanationOf(node: ShapNode, texts: map<string, ReasonText>): Explanation {
    Explanation(node.nodeId, Reasons(node.topFactors, texts))
  }

  /** The inner loop: the reasons of one node's factors */
  method CollectReasons(factors: seq<Factor>, texts: map<string, ReasonText>) returns (reasons: seq<string>)
    ensures reasons == Reasons(factors, texts)
  {
    reasons := [];
    var j := 0;
    while j < |factors|
      invariant 0 <= j <= |factors|
      invariant reasons == Reasons(factors[..j], texts)
    {
      var featureInfo := factors[j];
      assert factors[..j + 1][..j] == factors[..j];
      if featureInfo.feature in texts {
        var reason := if featureInfo.impact > 0.0 then texts[featureInfo.feature].positive
                      else texts[featureInfo.feature].negative;
        reasons := reasons + [reason];
      }
      j := j + 1;
    }
    assert factors[..|factors|] == factors;
  }

  /** The outer loop: one explanation per SHAP node, in the same order, with the same id */
  method GenerateHumanExplanations(shapData: seq<ShapNode>, texts: map<string, ReasonText>)
    returns (explanations: seq<Explanation>)
    ensures |explanations| == |shapData|
    ensures forall i :: 0 <= i < |shapData| ==>
      explanations[i].nodeId == shapData[i].nodeId
      && explanations[i].reasons == Reasons(shapData[i].topFactors, texts)
  {
    explanations := [];
    var i := 0;
    while i < |shapData|
      invariant 0 <= i <= |shapData|
      invariant |explanations| == i
      invariant forall k :: 0 <= k < i ==> explanations[k] == ExplanationOf(shapData[k], texts)
    {
      var node := shapData[i];
      var reasons := CollectReasons(node.topFactors, texts);
      explanations := explanations + [Explanation(node.nodeId, reasons)];
      i := i + 1;
    }
  }
}
