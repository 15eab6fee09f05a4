/**
 * The sentiment pulse of App.py: the mean polarity of the headlines and
 * its Positive/Negative label. The per-headline polarities (TextBlob's
 * scores, each in [-1, 1]) are inputs.
 */
module Sentiment {
  import opened Wrappers

  /** The fixed headline list the dashboard scores. */
  const Headlines: seq<string> := ["Market shows resilience", "NIFTY hits new high", "Global stocks rally"]

  datatype Label = Positive | Negative

  datatype SentimentResult = SentimentResult(score: real, category: Label)

  /** Dividing by the number of headlines fails when there are none. */
  datatype SentimentError = EmptyHeadlineSet

  /** `sum` of the polarities: n polarities in [-1, 1] sum to a value in [-n, n]. */
  function Sum(polarities: seq<real>): (s: real)
    ensures InUnitRange(polarities) ==> -(|polarities| as real) <= s <= |polarities| as real
  {
    if |polarities| == 0 then 0.0
    else
      assert forall i :: 1 <= i < |polarities| ==> polarities[1..][i - 1] == polarities[i];
      polarities[0] + Sum(polarities[1..])
  }

  predicate InUnitRange(polarities: seq<real>) {
    forall i :: 0 <= i < |polarities| ==> -1.0 <= polarities[i] <= 1.0
  }

  /** `sum(...) / len(headlines)`. */
  function Mean(polarities: seq<real>): (m: real)
    requires |polarities| > 0
    ensures m * (|polarities| as real) == Sum(polarities)
  {
    Sum(polarities) / (|polarities| as real)
  }

  /** `"Positive" if sentiment_score > 0 else "Negative"`. */
  function LabelOf(score: real): (l: Label)
    ensures l == Positive <==> score > 0.0
    ensures l == Negative <==> score <= 0.0
  {
    if score > 0.0 then Positive else Negative
  }

  /**
   * The whole scorer: the mean polarity and its label, or EmptyHeadlineSet
   * where Python's division by `len(headlines)` would raise.
   */
  function Analyse(polarities: seq<real>): (r: Result<SentimentResult, SentimentError>)
    ensures r.Failure? <==> |polarities| == 0
    ensures r.Success? ==> r.value.score * (|polarities| as real) == Sum(polarities)
    ensures r.Success? ==> (r.value.category == Positive <==> r.value.score > 0.0)
  {
    if |polarities| == 0 then Failure(EmptyHeadlineSet)
    else
      var score := Mean(polarities);
      Success(SentimentResult(score, LabelOf(score)))
  }

  /** With every polarity in [-1, 1] the score lies in [-1, 1]. */
  lemma {:induction false} ScoreInUnitRange(polarities: seq<real>)
    requires |polarities| > 0 && InUnitRange(polarities)
    ensures -1.0 <= Analyse(polarities).value.score <= 1.0
  {
    var n := |polarities| as real;
    var s := Analyse(polarities).value.score;
    assert s * n == Sum(polarities);
    UnitScale(s, n);
  }

  lemma UnitScale(s: real, n: real)
    requires n > 0.0 && -n <= s * n <= n
    ensures -1.0 <= s <= 1.0
  {
  }

  lemma {:induction false} SumSign(polarities: seq<real>)
    ensures (forall i :: 0 <= i < |polarities| ==> polarities[i] <= 0.0) ==> Sum(polarities) <= 0.0
    ensures (|polarities| > 0 && forall i :: 0 <= i < |polarities| ==> polarities[i] > 0.0) ==> Sum(polarities) > 0.0
  {
    if |polarities| > 0 {
      SumSign(polarities[1..]);
      assert forall i :: 1 <= i < |polarities| ==> polarities[1..][i - 1] == polarities[i];
    }
  }

  /**
   * The label is Positive exactly when the polarities sum to more than
   * zero; so headlines that are all neutral (the boundary score 0) are
   * labelled Negative, and all-positive headlines Positive.
   */
  lemma {:induction false} LabelFollowsSum(polarities: seq<real>)
    requires |polarities| > 0
    ensures Analyse(polarities).value.category == Positive <==> Sum(polarities) > 0.0
    ensures (forall i :: 0 <= i < |polarities| ==> polarities[i] == 0.0)
            ==> Analyse(polarities).value == SentimentResult(0.0, Negative)
    ensures (forall i :: 0 <= i < |polarities| ==> polarities[i] > 0.0)
            ==> Analyse(polarities).value.category == Positive
  {
    var n := |polarities| as real;
    var s := Analyse(polarities).value.score;
    assert s * n == Sum(polarities);
    assert s > 0.0 <==> s * n > 0.0;
    SumSign(polarities);
    if forall i :: 0 <= i < |polarities| ==> polarities[i] == 0.0 {
      assert Sum(polarities) <= 0.0;
      ZeroSum(polarities);
    }
  }

  lemma {:induction false} ZeroSum(polarities: seq<real>)
    requires forall i :: 0 <= i < |polarities| ==> polarities[i] == 0.0
    ensures Sum(polarities) == 0.0
  {
    if |polarities| > 0 {
      assert forall i :: 1 <= i < |polarities| ==> polarities[1..][i - 1] == polarities[i];
      ZeroSum(polarities[1..]);
    }
  }
}
