# NIFTY 50 market dashboard: data pipeline model

A Dafny model of the non-presentation logic of `App.py`, a Streamlit dashboard for the NIFTY 50 index (`^NSEI`). The script:

- downloads five years of daily OHLCV (open, high, low, close, volume) prices;
- flattens a multi-level column header and stops when there is no data or no `Close` column;
- reads the current price from the last row;
- scores a fixed list of three headlines by mean polarity and labels the score Positive or Negative;
- shows a "next day" figure of the price plus 0.5%;
- charts the last 60 days and the monthly, quarterly and yearly resamples;
- shows a confidence alert or a volatility warning, depending on the sign of the sentiment score.

The model has seven modules:

- `Wrappers`: Option and Result.
- `Calendar`: Gregorian dates (a subset type of valid dates), the calendar keys `(year, month)`, `(year, quarter)` and `(year)`, and the period-end dates pandas uses to label `'M'`, `'Q'` and `'Y'` buckets.
- `Loader`: the provider's table, modelled abstractly as column labels, a date index and rows of cells.
  - A `DataFrame` class whose header `load_data` overwrites in place.
  - `LoadData` and `CheckLoaded` as methods.
  - `Normalise`, the value the loader returns.
- `Resampler`: `resample(rule).agg({'Open':'first','High':'max','Low':'min','Close':'last','Volume':'sum'})` as pure functions.
  - `ResamplerProperties` holds the structure lemmas.
  - `ResamplerExamples` holds worked examples.
- `Sentiment`: the mean polarity, its label, and the error for an empty headline list.
- `Outlook`: the +0.5% figure and the alert.
- `Dashboard`: `Run`, one pass of the script from `load_data()` to the alert.

Three behaviours of App.py shape the model:

- App.py never checks that the price is positive before computing the prediction (App.py:56), so `Predict` is defined for every price.
- An empty resample only triggers `plot_chart`'s "No data available" warning (App.py:71-73); there is no error for it. `SeriesEnds` proves that a resample is empty only when the input is, and `Run` proves that a successful run never produces an empty view.
- An empty headline list would make `sum(...) / len(headlines)` (App.py:45) raise `ZeroDivisionError`. `Analyse` models this as `Failure(EmptyHeadlineSet)`.

## Model

| member | source | states |
|---|---|---|
| `Calendar.KeyOf` | App.py:81-89 | a date's bucket key is a valid month, quarter (0..3) or year key of the date's own year |
| `Calendar.PeriodEnd` | App.py:81-89 | a bucket's label is the last calendar day of its period, and the label's own key is the bucket's key |
| `Calendar.PeriodContains` | App.py:81-89 | every date lies on or before the end of its period, in the same year |
| `Calendar.KeyMonotone` | App.py:81-89 | a later date never has an earlier bucket key |
| `Calendar.PeriodEndMonotone` | App.py:81-89 | one key comes before another exactly when its period-end label is earlier |
| `Loader.Labels` | App.py:22-23 | one level-0 label per column, in column order; flat labels are returned unchanged |
| `Loader.Flatten` | App.py:22-23 | flattening yields a flat header with the same width and the same level-0 labels; a flat header is left as is |
| `Loader.Normalise` | App.py:17-25 | no table for a failed or empty download; otherwise a non-empty table with a flat header, the same rows and index, and the same labels |
| `Loader.IsEmpty` | App.py:20 | `df.empty`: a rectangular frame is empty exactly when it holds no cell |
| `Loader.ColumnIndex` | App.py:37-41 | absent exactly when the label is missing; otherwise the position of the first column with that label |
| `Loader.LastClose` | App.py:41 | the current price is the Close cell of the last row |
| `Loader.Tail` | App.py:78 | the daily view is the last min(n, rows) rows, in original order, with the same columns |
| `Loader.TailKeepsLastClose` | App.py:78 | the daily view is non-empty and ends on the row the current price is read from |
| `Loader.DataFrame.constructor` | App.py:19 | a new frame holds exactly the downloaded table |
| `Loader.DataFrame.FlattenColumns` | App.py:23 | the header becomes its level-0 labels; index and cells are unchanged |
| `Loader.LoadData` | App.py:17-28 | null exactly when the download failed or is empty; otherwise a fresh frame equal to the normalised table |
| `Loader.CheckLoaded` | App.py:33-41 | halts with "no data" exactly for a null frame, and with the found labels exactly when Close is missing; on proceeding, the frame is non-empty, has Close, and the price is the last Close |
| `Resampler.Groups` | App.py:81 | the rows split, in order, into non-empty runs whose members all share the run's calendar key |
| `ResamplerProperties.NeighbourRunsDiffer` | App.py:81 | the runs are maximal: neighbouring runs never share a key |
| `Resampler.MaxHigh` | App.py:81 | 'max' of High: at least every member's High and equal to one of them |
| `Resampler.MinLow` | App.py:81 | 'min' of Low: at most every member's Low and equal to one of them |
| `Resampler.SumVolume` | App.py:81 | 'sum' of Volume: non-negative when every member's volume is |
| `Resampler.Aggregate` | App.py:81 | a bucket's Open is its first row's Open and its Close its last row's Close; High and Low bound every member and are attained; Volume is the members' sum; the label is the last day of the bucket's calendar period, has the members' key and is not before any member |
| `Resampler.Resample` | App.py:81-89 | one bar per run, bar i aggregating run i |
| `Resampler.LocateOhlcv` | App.py:81 | the five columns are found exactly when all five labels are present, each at the first position carrying its label |
| `Resampler.ToBars` | App.py:81 | bars exist exactly when the frame has all five OHLCV columns; one bar per row, in order, with the row's date and its Open, High, Low, Close and Volume cells |
| `ResamplerProperties.GroupsAscending` | App.py:81-89 | for an ascending series the runs have strictly ascending keys |
| `ResamplerProperties.BucketsAscending` | App.py:81-89 | for an ascending series the buckets' keys and labels are strictly ascending |
| `ResamplerProperties.BucketKeysAreRowKeys` | App.py:81-89 | the set of bucket keys equals the set of row keys: no empty bucket and no row left out |
| `ResamplerProperties.OneBucketPerKey` | App.py:81-89 | for an ascending series the number of buckets equals the number of distinct calendar keys |
| `ResamplerProperties.RowInBucketIffKey` | App.py:81-89 | for an ascending series the runs concatenate back to the rows, and a row is in a bucket exactly when it has that bucket's key |
| `ResamplerProperties.VolumeConserved` | App.py:81-89 | total volume over the buckets equals total input volume |
| `ResamplerProperties.SeriesEnds` | App.py:70-89 | a resample is empty exactly when the input is; otherwise the first bucket opens at the first Open and the last closes at the last Close |
| `ResamplerExamples.AcrossJanuaryEndGroups` | App.py:81-85 | five days 30 Jan - 5 Feb 2024 split into two monthly runs (two January days, three February days) and one quarterly run |
| `ResamplerExamples.AcrossJanuaryEndMonthly` | App.py:81 | those days give two monthly bars labelled 31 Jan and 29 Feb 2024, closing at January's last close (102) and at the last close (110), each opening on its first day and holding its own days' volume |
| `ResamplerExamples.JanuaryBar` | App.py:81 | the January bucket is labelled 31 Jan, opens on 30 Jan, closes on 31 Jan and sums both days' volume |
| `ResamplerExamples.FebruaryBar` | App.py:81 | the February bucket is labelled 29 Feb (leap year), opens on 1 Feb, closes on 5 Feb and sums the three days' volume |
| `ResamplerExamples.AcrossJanuaryEndQuarterly` | App.py:85 | the same days give one quarterly bar labelled 31 Mar 2024, with the first Open, the last Close (110) and all the volume |
| `Sentiment.Sum` | App.py:45 | the `sum` of n polarities in [-1, 1] lies in [-n, n] |
| `Sentiment.Mean` | App.py:45 | the score times the number of headlines equals the sum of the polarities |
| `Sentiment.LabelOf` | App.py:46 | Positive exactly for a score above 0, Negative exactly for a score of 0 or below |
| `Sentiment.Analyse` | App.py:44-46 | fails exactly on an empty headline list; otherwise the score is the mean polarity and the label is Positive iff the score is > 0 |
| `Sentiment.ScoreInUnitRange` | App.py:45 | polarities in [-1, 1] give a score in [-1, 1] |
| `Sentiment.LabelFollowsSum` | App.py:46 | Positive iff the polarities sum to more than 0; all-neutral headlines give score 0 and Negative; all-positive headlines give Positive |
| `Outlook.Predict` | App.py:56 | the prediction is price × 1.005; it exceeds the price iff the price is positive, and equals it iff the price is 0 |
| `Outlook.AlertFor` | App.py:94-97 | the high-confidence alert exactly for a Positive label of the score, the volatility warning exactly for a Negative one |
| `Outlook.AlertAgreesWithLabel` | App.py:94-97 | the high-confidence alert appears exactly when the label is Positive, i.e. when the polarities sum above 0 |
| `Outlook.OutlookExamples` | App.py:56 | 20000 predicts 20100; scores -0.3 and 0 give the warning, and 0.4 gives high confidence |
| `Dashboard.ResampleTable` | App.py:81-89 | a tab has a view exactly when the frame has all five OHLCV columns; the view is the resample of the frame's bars, empty exactly when the frame is, opening at the first row's Open and closing at the last row's Close |
| `Dashboard.Run` | App.py:30-97 | halts with "no data" or "missing Close" exactly on the loader's failures; otherwise the price is the loaded frame's last Close, the prediction is 1.005 times it, alert and label agree, the daily view is the last 60 rows ending at the price row, and the timeframe views exist exactly when the five OHLCV columns do, each the non-empty `ResampleTable` view of its tab |

## Left out

- Page layout and widgets: page config, sidebar role selector, titles, metrics, tabs, info/success/warning and caption (App.py:8-13, 49-68, 93-100). They are presentation only.
- Chart drawing with mplfinance and `st.pyplot` (App.py:70-75). The "No data available" branch is covered by `SeriesEnds` and by `Run`'s non-empty views.
- The network download and its exception handling (App.py:19, 26-28). `Download` is an abstract input: a table, or `Failed`. The error message is not modelled.
- `@st.cache_data` memoisation (App.py:16). It is framework behaviour.
- TextBlob polarity (App.py:45). It is a foreign library; the polarities arrive as an input, one per headline.
- `pd.to_datetime` (App.py:24). The index already holds `Calendar.Date` values, so the conversion is the identity and is not modelled.
- Floating point. Prices, cells and volumes are `real`, so 0.005 is exact and rounding is not modelled. Volume is therefore real as well, although the provider gives integers. The `:.2f` formatting (App.py:53-60) is not modelled either.
- Resampler.Resample: groups maximal runs of rows with equal calendar key. pandas bins by calendar period whatever the row order; the two agree on a series in ascending date order, which the provider delivers. The structure lemmas therefore require `Ascending`.
- Resampler.Resample: pandas emits NaN rows for calendar periods with no rows between two that have rows. The model produces only non-empty buckets; daily data never leaves a month empty.
- Resampler.Aggregate: pandas' 'first', 'last', 'max', 'min' and 'sum' skip NaN cells. The model has no NaN.
- Loader.ColumnIndex: takes the first column when a label repeats. pandas would return a sub-frame instead; the provider's single-ticker header has no repeats.
- Loader.CheckLoaded: requires the frame `LoadData` produces (non-empty and flat). `load_data` is its only source.
- Dashboard.Run: when `agg` raises `KeyError` for a missing OHLCV column, Streamlit stops at that tab and the alert is not drawn. The model still returns the alert, with `timeframes` set to None.
- Dashboard.Run: requires one polarity per entry of the fixed three-headline list. The scorer itself (`Sentiment.Analyse`) accepts any list.
- The "LSTM" wording (App.py:8, 100): no such model exists in the code.
