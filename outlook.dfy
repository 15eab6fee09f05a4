/**
 * The outlook of App.py: the "next day" figure (the current price plus
 * 0.5%) and the risk alert chosen by the sign of the sentiment score.
 */
module Outlook {
  import opened Sentiment

  /** The fixed +0.5% uplift. */
  const Uplift: real := 0.005

  /** `current_price + (current_price * 0.005)`. */
  function Predict(price: real): (p: real)
    ensures p == price * 1.005
    ensures p > price <==> price > 0.0
    ensures p == price <==> price == 0.0
  {
    price + price * Uplift
  }

  datatype Alert = ConfidenceHigh | VolatilityWarning

  /** "Market Confidence: High." when the score is above zero, the volatility warning otherwise. */
  function AlertFor(score: real): (a: Alert)
    ensures a == ConfidenceHigh <==> LabelOf(score) == Positive
    ensures a == VolatilityWarning <==> LabelOf(score) == Negative
  {
    if score > 0.0 then ConfidenceHigh else VolatilityWarning
  }

  /** The alert and the label apply the same test: high confidence exactly for a Positive label. */
  lemma AlertAgreesWithLabel(polarities: seq<real>)
    requires |polarities| > 0
    ensures var s := Analyse(polarities).value;
            AlertFor(s.score) == ConfidenceHigh <==> s.category == Positive
    ensures var s := Analyse(polarities).value;
            AlertFor(s.score) == ConfidenceHigh <==> Sum(polarities) > 0.0
  {
    LabelFollowsSum(polarities);
  }

  /** The figures the dashboard shows for one run. */
  lemma OutlookExamples()
    ensures Predict(20000.0) == 20100.0
    ensures AlertFor(-0.3) == VolatilityWarning && AlertFor(0.4) == ConfidenceHigh
    ensures AlertFor(0.0) == VolatilityWarning && LabelOf(0.0) == Negative
  {
  }
}
