/**
 * One run of the App.py script, without its rendering: load and check the
 * frame, then derive the metrics, the four chart views and the alert that
 * the page shows.
 */
module Dashboard {
  import opened Wrappers
  import opened Calendar
  import opened Loader
  import opened Resampler
  import opened ResamplerProperties
  import opened Sentiment
  import opened Outlook

  /** The Monthly, Quarterly and Yearly tabs. */
  datatype Timeframes = Timeframes(monthly: seq<Bar>, quarterly: seq<Bar>, yearly: seq<Bar>)

  /** Everything the page displays after the checks pass. */
  datatype View = View(
    currentPrice: real,
    prediction: real,
    sentiment: SentimentResult,
    daily: Table,
    timeframes: Option<Timeframes>,
    alert: Alert)

  /**
   * One tab's resampled view of the loaded frame (the Monthly, Quarterly
   * and Yearly tabs): None where `agg` would raise on a missing OHLCV
   * column; otherwise non-empty exactly when the frame is, opening on the
   * frame's first Open and closing on its last Close.
   */
  function ResampleTable(g: Granularity, t: Table): (r: Option<seq<Bar>>)
    requires Rectangular(t)
    ensures r.Some? <==> HasOhlcv(Labels(t.columns))
    ensures r.Some? ==> r.value == Resample(g, ToBars(t).value)
    ensures r.Some? ==> (|r.value| == 0 <==> |t.index| == 0)
    ensures r.Some? && |t.index| > 0 ==>
              var labels := Labels(t.columns);
              && r.value[0].open == t.cells[0][ColumnIndex(labels, "Open").value]
              && r.value[|r.value| - 1].close == t.cells[|t.index| - 1][ColumnIndex(labels, "Close").value]
  {
    match ToBars(t)
    case None => None
    case Some(bars) =>
      SeriesEnds(g, bars);
      Some(Resample(g, bars))
  }

  /**
   * The script from `load_data()` to the alert. It halts when the download
   * failed or was empty, or when there is no Close column; otherwise every
   * figure is derived from the loaded frame and the headline polarities.
   * `timeframes` is None where `agg` would raise on a missing OHLCV column.
   */
  method Run(d: Download, polarities: seq<real>) returns (r: Result<View, Halt>)
    requires d.Fetched? ==> Rectangular(d.table)
    requires |polarities| == |Headlines|
    ensures r == Failure(NoData) <==> Normalise(d).None?
    ensures r.Failure? && r.error.MissingClose?
            <==> Normalise(d).Some? && CloseLabel !in Labels(Normalise(d).value.columns)
    ensures r.Success? ==>
              var t := Normalise(d).value;
              && |t.index| > 0 && CloseLabel in Labels(t.columns)
              && r.value.currentPrice == LastClose(t)
              && r.value.prediction == r.value.currentPrice * 1.005
              && r.value.sentiment == Analyse(polarities).value
              && (r.value.alert == ConfidenceHigh <==> r.value.sentiment.category == Positive)
              && r.value.daily == Tail(t, DailyRows)
              && |r.value.daily.index| > 0 && LastClose(r.value.daily) == r.value.currentPrice
              && (r.value.timeframes.Some? <==> HasOhlcv(Labels(t.columns)))
    ensures r.Success? && r.value.timeframes.Some? ==>
              var t := Normalise(d).value;
              var views := r.value.timeframes.value;
              && Some(views.monthly) == ResampleTable(Monthly, t) && |views.monthly| > 0
              && Some(views.quarterly) == ResampleTable(Quarterly, t) && |views.quarterly| > 0
              && Some(views.yearly) == ResampleTable(Yearly, t) && |views.yearly| > 0
  {
    var df := LoadData(d);
    var gate := CheckLoaded(df);
    if gate.Halted? {
      return Failure(gate.reason);
    }
    var t := df.Snapshot();
    var price := gate.currentPrice;
    var sentiment := Analyse(polarities).value;
    AlertAgreesWithLabel(polarities);
    TailKeepsLastClose(t, DailyRows);
    var timeframes := None;
    var monthly, quarterly, yearly := ResampleTable(Monthly, t), ResampleTable(Quarterly, t), ResampleTable(Yearly, t);
    if monthly.Some? {
      timeframes := Some(Timeframes(monthly.value, quarterly.value, yearly.value));
    }
    r := Success(View(price, Predict(price), sentiment, Tail(t, DailyRows), timeframes, AlertFor(sentiment.score)));
  }
}
