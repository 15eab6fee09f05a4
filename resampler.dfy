/**
 * The resampling of App.py's Monthly, Quarterly and Yearly tabs:
 * `df.resample(rule).agg({'Open':'first', 'High':'max', 'Low':'min',
 * 'Close':'last', 'Volume':'sum'})`.
 *
 * Rows are grouped into maximal runs of one calendar key; on a series in
 * ascending date order (what the provider delivers) these runs are exactly
 * pandas' calendar bins, and each becomes one bar labelled with the
 * period's last day.
 */
module Resampler {
  import opened Wrappers
  import opened Calendar
  import Loader

  /** One OHLCV record. */
  datatype Bar = Bar(date: Date, open: real, high: real, low: real, close: real, volume: real)

  predicate Ascending(bars: seq<Bar>) {
    forall i, j :: 0 <= i < j < |bars| ==> Before(bars[i].date, bars[j].date)
  }

  function Concat(groups: seq<seq<Bar>>): (r: seq<Bar>)
  {
    if |groups| == 0 then [] else groups[0] + Concat(groups[1..])
  }

  function GroupKey(g: Granularity, group: seq<Bar>): Key
    requires |group| > 0
  {
    KeyOf(g, group[0].date)
  }

  /**
   * The rows split, in order, into non-empty runs that share a calendar
   * key; a row joins the run before it exactly when it has that run's key,
   * so neighbouring runs have different keys (`NeighbourRunsDiffer`).
   */
  function Groups(g: Granularity, bars: seq<Bar>): (r: seq<seq<Bar>>)
    ensures Concat(r) == bars
    ensures forall i :: 0 <= i < |r| ==> |r[i]| > 0
    ensures forall i, j :: 0 <= i < |r| && 0 <= j < |r[i]| ==> KeyOf(g, r[i][j].date) == GroupKey(g, r[i])
    decreases |bars|
  {
    if |bars| == 0 then []
    else
      var rest := Groups(g, bars[1..]);
      if |rest| > 0 && GroupKey(g, rest[0]) == KeyOf(g, bars[0].date) then
        var r := [[bars[0]] + rest[0]] + rest[1..];
        assert r[1..] == rest[1..];
        assert Concat(rest) == rest[0] + Concat(rest[1..]);
        r
      else
        var r := [[bars[0]]] + rest;
        assert r[1..] == rest;
        r
  }

  /** 'max' of the High column. */
  function MaxHigh(group: seq<Bar>): (m: real)
    requires |group| > 0
    ensures forall i :: 0 <= i < |group| ==> group[i].high <= m
    ensures exists i :: 0 <= i < |group| && group[i].high == m
  {
    if |group| == 1 then group[0].high
    else
      var rest := MaxHigh(group[1..]);
      assert forall i :: 1 <= i < |group| ==> group[i] == group[1..][i - 1];
      if group[0].high >= rest then group[0].high else rest
  }

  /** 'min' of the Low column. */
  function MinLow(group: seq<Bar>): (m: real)
    requires |group| > 0
    ensures forall i :: 0 <= i < |group| ==> m <= group[i].low
    ensures exists i :: 0 <= i < |group| && group[i].low == m
  {
    if |group| == 1 then group[0].low
    else
      var rest := MinLow(group[1..]);
      assert forall i :: 1 <= i < |group| ==> group[i] == group[1..][i - 1];
      if group[0].low <= rest then group[0].low else rest
  }

  /** 'sum' of the Volume column. */
  function SumVolume(bars: seq<Bar>): (v: real)
    ensures (forall i :: 0 <= i < |bars| ==> bars[i].volume >= 0.0) ==> v >= 0.0
  {
    if |bars| == 0 then 0.0
    else
      assert forall i :: 1 <= i < |bars| ==> bars[i] == bars[1..][i - 1];
      bars[0].volume + SumVolume(bars[1..])
  }

  /** One bucket's bar: first Open, largest High, smallest Low, last Close, total Volume. */
  function Aggregate(g: Granularity, group: seq<Bar>): (b: Bar)
    requires |group| > 0
    requires forall j :: 0 <= j < |group| ==> KeyOf(g, group[j].date) == GroupKey(g, group)
    ensures b.open == group[0].open
    ensures b.close == group[|group| - 1].close
    ensures forall j :: 0 <= j < |group| ==> group[j].high <= b.high && b.low <= group[j].low
    ensures (exists j :: 0 <= j < |group| && group[j].high == b.high)
            && (exists j :: 0 <= j < |group| && group[j].low == b.low)
    ensures b.volume == SumVolume(group)
    ensures forall j :: 0 <= j < |group| ==> KeyOf(g, b.date) == KeyOf(g, group[j].date)
    ensures forall j :: 0 <= j < |group| ==> !Before(b.date, group[j].date)
    ensures b.date == PeriodEnd(g, GroupKey(g, group))
  {
    var end := PeriodEnd(g, GroupKey(g, group));
    GroupWithinPeriod(g, group);
    Bar(end, group[0].open, MaxHigh(group), MinLow(group), group[|group| - 1].close, SumVolume(group))
  }

  lemma GroupWithinPeriod(g: Granularity, group: seq<Bar>)
    requires |group| > 0
    requires forall j :: 0 <= j < |group| ==> KeyOf(g, group[j].date) == GroupKey(g, group)
    ensures forall j :: 0 <= j < |group| ==> !Before(PeriodEnd(g, GroupKey(g, group)), group[j].date)
  {
    forall j | 0 <= j < |group| ensures !Before(PeriodEnd(g, GroupKey(g, group)), group[j].date) {
      PeriodContains(g, group[j].date);
    }
  }

  /** `df.resample(rule).agg(...)` for rule 'M', 'Q' or 'Y'. */
  function Resample(g: Granularity, bars: seq<Bar>): (out: seq<Bar>)
    ensures |out| == |Groups(g, bars)|
    ensures forall i :: 0 <= i < |out| ==> out[i] == Aggregate(g, Groups(g, bars)[i])
  {
    var groups := Groups(g, bars);
    seq(|groups|, i requires 0 <= i < |groups| => Aggregate(g, groups[i]))
  }

  /** Positions of the five columns `agg` names. */
  datatype OhlcvColumns = OhlcvColumns(open: nat, high: nat, low: nat, close: nat, volume: nat)

  predicate HasOhlcv(labels: seq<string>) {
    "Open" in labels && "High" in labels && "Low" in labels && "Close" in labels && "Volume" in labels
  }

  /** Looks up the five columns, taking the first of repeated labels. */
  function LocateOhlcv(labels: seq<string>): (r: Option<OhlcvColumns>)
    ensures r.Some? <==> HasOhlcv(labels)
    ensures r.Some? ==>
              && r.value.open < |labels| && labels[r.value.open] == "Open"
              && r.value.high < |labels| && labels[r.value.high] == "High"
              && r.value.low < |labels| && labels[r.value.low] == "Low"
              && r.value.close < |labels| && labels[r.value.close] == "Close"
              && r.value.volume < |labels| && labels[r.value.volume] == "Volume"
    ensures r.Some? ==>
              && Loader.ColumnIndex(labels, "Open") == Some(r.value.open)
              && Loader.ColumnIndex(labels, "High") == Some(r.value.high)
              && Loader.ColumnIndex(labels, "Low") == Some(r.value.low)
              && Loader.ColumnIndex(labels, "Close") == Some(r.value.close)
              && Loader.ColumnIndex(labels, "Volume") == Some(r.value.volume)
  {
    var o := Loader.ColumnIndex(labels, "Open");
    var h := Loader.ColumnIndex(labels, "High");
    var l := Loader.ColumnIndex(labels, "Low");
    var c := Loader.ColumnIndex(labels, "Close");
    var v := Loader.ColumnIndex(labels, "Volume");
    if o.None? || h.None? || l.None? || c.None? || v.None? then None
    else Some(OhlcvColumns(o.value, h.value, l.value, c.value, v.value))
  }

  function RowBar(t: Loader.Table, cols: OhlcvColumns, i: nat): Bar
    requires Loader.Rectangular(t) && i < |t.index|
    requires cols.open < Loader.Width(t.columns) && cols.high < Loader.Width(t.columns)
    requires cols.low < Loader.Width(t.columns) && cols.close < Loader.Width(t.columns)
    requires cols.volume < Loader.Width(t.columns)
  {
    Bar(t.index[i], t.cells[i][cols.open], t.cells[i][cols.high], t.cells[i][cols.low],
        t.cells[i][cols.close], t.cells[i][cols.volume])
  }

  /**
   * The frame's rows as bars, one per row and in row order; None when
   * `agg` would name a column the frame lacks (pandas raises KeyError).
   */
  function ToBars(t: Loader.Table): (r: Option<seq<Bar>>)
    requires Loader.Rectangular(t)
    ensures r.Some? <==> HasOhlcv(Loader.Labels(t.columns))
    ensures r.Some? ==> |r.value| == |t.index|
    ensures r.Some? ==> forall i :: 0 <= i < |r.value| ==> r.value[i].date == t.index[i]
    ensures r.Some? ==> forall i :: 0 <= i < |r.value| ==>
              var labels := Loader.Labels(t.columns);
              && r.value[i].open == t.cells[i][Loader.ColumnIndex(labels, "Open").value]
              && r.value[i].high == t.cells[i][Loader.ColumnIndex(labels, "High").value]
              && r.value[i].low == t.cells[i][Loader.ColumnIndex(labels, "Low").value]
              && r.value[i].close == t.cells[i][Loader.ColumnIndex(labels, "Close").value]
              && r.value[i].volume == t.cells[i][Loader.ColumnIndex(labels, "Volume").value]
  {
    match LocateOhlcv(Loader.Labels(t.columns))
    case None => None
    case Some(cols) => Some(seq(|t.index|, i requires 0 <= i < |t.index| => RowBar(t, cols, i)))
  }
}

/** What resampling promises: a partition of the rows into calendar buckets. */
module ResamplerProperties {
  import opened Calendar
  import opened Resampler

  /** The keys of the buckets the rows fall in. */
  function KeySet(g: Granularity, bars: seq<Bar>): set<Key> {
    set k | 0 <= k < |bars| :: KeyOf(g, bars[k].date)
  }

  /** `groups` splits `bars`, in order, into non-empty runs of one key each. */
  predicate Partitioned(g: Granularity, groups: seq<seq<Bar>>, bars: seq<Bar>) {
    && Concat(groups) == bars
    && (forall i :: 0 <= i < |groups| ==> |groups[i]| > 0)
    && (forall i, j :: 0 <= i < |groups| && 0 <= j < |groups[i]| ==>
          KeyOf(g, groups[i][j].date) == GroupKey(g, groups[i]))
  }

  /** Bucket `i` of `out` carries the key of group `i`. */
  predicate Labelled(g: Granularity, groups: seq<seq<Bar>>, out: seq<Bar>)
    requires forall i :: 0 <= i < |groups| ==> |groups[i]| > 0
  {
    |out| == |groups| && forall i :: 0 <= i < |out| ==> KeyOf(g, out[i].date) == GroupKey(g, groups[i])
  }

  predicate StrictlyAscendingKeys(g: Granularity, groups: seq<seq<Bar>>)
    requires forall i :: 0 <= i < |groups| ==> |groups[i]| > 0
  {
    forall i, j :: 0 <= i < j < |groups| ==> KeyBefore(GroupKey(g, groups[i]), GroupKey(g, groups[j]))
  }

  lemma {:induction false} ConcatLength(groups: seq<seq<Bar>>)
    ensures |Concat(groups)| == 0 <==> forall i :: 0 <= i < |groups| ==> |groups[i]| == 0
  {
    if |groups| > 0 {
      ConcatLength(groups[1..]);
      assert forall i :: 1 <= i < |groups| ==> groups[i] == groups[1..][i - 1];
    }
  }

  /** Row `k` of the concatenation is member `j` of group `i`. */
  lemma {:induction false} Locate(groups: seq<seq<Bar>>, k: nat) returns (i: nat, j: nat)
    requires k < |Concat(groups)|
    ensures i < |groups| && j < |groups[i]| && groups[i][j] == Concat(groups)[k]
  {
    if k < |groups[0]| {
      i, j := 0, k;
    } else {
      var i', j' := Locate(groups[1..], k - |groups[0]|);
      i, j := i' + 1, j';
    }
  }

  /** Member `j` of group `i` is a row of the concatenation. */
  lemma {:induction false} MemberInConcat(groups: seq<seq<Bar>>, i: nat, j: nat)
    requires i < |groups| && j < |groups[i]|
    ensures groups[i][j] in Concat(groups)
  {
    if i > 0 {
      MemberInConcat(groups[1..], i - 1, j);
    } else {
      assert Concat(groups)[j] == groups[0][j];
    }
  }

  lemma {:induction false} ConcatEnds(groups: seq<seq<Bar>>)
    requires |groups| > 0
    requires forall i :: 0 <= i < |groups| ==> |groups[i]| > 0
    ensures |Concat(groups)| > 0
    ensures Concat(groups)[0] == groups[0][0]
    ensures Concat(groups)[|Concat(groups)| - 1] == groups[|groups| - 1][|groups[|groups| - 1]| - 1]
  {
    if |groups| > 1 {
      ConcatEnds(groups[1..]);
    }
  }

  lemma {:induction false} SumVolumeAppend(a: seq<Bar>, b: seq<Bar>)
    ensures SumVolume(a + b) == SumVolume(a) + SumVolume(b)
  {
    if |a| > 0 {
      assert (a + b)[1..] == a[1..] + b;
      SumVolumeAppend(a[1..], b);
    } else {
      assert a + b == b;
    }
  }

  /** Summing per-group totals is summing the rows. */
  lemma {:induction false} SumVolumeGroups(groups: seq<seq<Bar>>, totals: seq<Bar>)
    requires |totals| == |groups|
    requires forall i :: 0 <= i < |groups| ==> totals[i].volume == SumVolume(groups[i])
    ensures SumVolume(totals) == SumVolume(Concat(groups))
  {
    if |groups| > 0 {
      SumVolumeGroups(groups[1..], totals[1..]);
      SumVolumeAppend(groups[0], Concat(groups[1..]));
    }
  }

  lemma AscendingTail(bars: seq<Bar>)
    requires Ascending(bars) && |bars| > 0
    ensures Ascending(bars[1..])
  {
    var tail := bars[1..];
    forall i, j | 0 <= i < j < |tail| ensures Before(tail[i].date, tail[j].date) {
      assert tail[i] == bars[i + 1] && tail[j] == bars[j + 1];
    }
  }

  /** The runs of an ascending series come in strictly ascending key order. */
  /** Two neighbouring runs never share a key. */
  predicate NeighboursDiffer(g: Granularity, groups: seq<seq<Bar>>)
    requires forall i :: 0 <= i < |groups| ==> |groups[i]| > 0
  {
    forall i :: 0 <= i < |groups| - 1 ==> GroupKey(g, groups[i]) != GroupKey(g, groups[i + 1])
  }

  /** Runs are maximal: two neighbouring runs never share a key. */
  lemma {:induction false} NeighbourRunsDiffer(g: Granularity, bars: seq<Bar>)
    ensures NeighboursDiffer(g, Groups(g, bars))
  {
    if |bars| > 0 {
      var tail := bars[1..];
      NeighbourRunsDiffer(g, tail);
      var rest := Groups(g, tail);
      var r := Groups(g, bars);
      if |rest| > 0 && GroupKey(g, rest[0]) == KeyOf(g, bars[0].date) {
        assert r == [[bars[0]] + rest[0]] + rest[1..];
        assert r[0] == [bars[0]] + rest[0];
        assert forall i :: 1 <= i < |r| ==> r[i] == rest[i];
        assert forall i :: 0 <= i < |r| ==> GroupKey(g, r[i]) == GroupKey(g, rest[i]);
      } else {
        assert r == [[bars[0]]] + rest;
        assert r[0] == [bars[0]];
        forall i | 0 <= i < |r| - 1 ensures GroupKey(g, r[i]) != GroupKey(g, r[i + 1]) {
          assert r[i + 1] == rest[i];
          if i > 0 {
            assert r[i] == rest[i - 1];
          }
        }
      }
    }
  }

  lemma {:induction false} GroupsAscending(g: Granularity, bars: seq<Bar>)
    requires Ascending(bars)
    ensures StrictlyAscendingKeys(g, Groups(g, bars))
  {
    if |bars| > 0 {
      var tail := bars[1..];
      AscendingTail(bars);
      GroupsAscending(g, tail);
      var rest := Groups(g, tail);
      var r := Groups(g, bars);
      if |rest| > 0 {
        assert Concat(rest) == rest[0] + Concat(rest[1..]);
        assert rest[0][0] == bars[1];
        KeyMonotone(g, bars[0].date, bars[1].date);
        var k0 := GroupKey(g, rest[0]);
        if k0 == KeyOf(g, bars[0].date) {
          assert r == [[bars[0]] + rest[0]] + rest[1..];
          assert forall i :: 0 <= i < |r| ==> GroupKey(g, r[i]) == GroupKey(g, rest[i]);
        } else {
          assert r == [[bars[0]]] + rest;
          assert KeyBefore(GroupKey(g, r[0]), k0);
          forall i, j | 0 <= i < j < |r| ensures KeyBefore(GroupKey(g, r[i]), GroupKey(g, r[j])) {
            assert r[j] == rest[j - 1];
            if i == 0 {
              if j > 1 {
                assert KeyBefore(k0, GroupKey(g, rest[j - 1]));
              }
            } else {
              assert r[i] == rest[i - 1];
            }
          }
        }
      }
    }
  }

  /** Each bucket carries the key of the rows it was built from. */
  lemma BucketKeys(g: Granularity, bars: seq<Bar>)
    ensures Partitioned(g, Groups(g, bars), bars)
    ensures Labelled(g, Groups(g, bars), Resample(g, bars))
  {
  }

  lemma {:induction false} LabelsAscending(g: Granularity, groups: seq<seq<Bar>>, out: seq<Bar>)
    requires forall i :: 0 <= i < |groups| ==> |groups[i]| > 0
    requires Labelled(g, groups, out) && StrictlyAscendingKeys(g, groups)
    ensures forall i, j :: 0 <= i < j < |out| ==> KeyBefore(KeyOf(g, out[i].date), KeyOf(g, out[j].date))
    ensures forall i, j :: 0 <= i < j < |out| ==> Before(out[i].date, out[j].date)
  {
    forall i, j | 0 <= i < j < |out| ensures Before(out[i].date, out[j].date) {
      PeriodEndMonotone(g, KeyOf(g, out[i].date), KeyOf(g, out[j].date));
    }
  }

  /** The buckets of an ascending series are in strictly ascending key and label order. */
  lemma {:induction false} BucketsAscending(g: Granularity, bars: seq<Bar>)
    requires Ascending(bars)
    ensures var out := Resample(g, bars);
            forall i, j :: 0 <= i < j < |out| ==> KeyBefore(KeyOf(g, out[i].date), KeyOf(g, out[j].date))
    ensures var out := Resample(g, bars);
            forall i, j :: 0 <= i < j < |out| ==> Before(out[i].date, out[j].date)
  {
    GroupsAscending(g, bars);
    BucketKeys(g, bars);
    LabelsAscending(g, Groups(g, bars), Resample(g, bars));
  }

  lemma {:induction false} LabelKeysAreRowKeys(g: Granularity, groups: seq<seq<Bar>>, out: seq<Bar>, bars: seq<Bar>)
    requires Partitioned(g, groups, bars) && Labelled(g, groups, out)
    ensures (set i | 0 <= i < |out| :: KeyOf(g, out[i].date)) == KeySet(g, bars)
  {
    var outKeys := set i | 0 <= i < |out| :: KeyOf(g, out[i].date);
    forall key | key in KeySet(g, bars) ensures key in outKeys {
      var k :| 0 <= k < |bars| && KeyOf(g, bars[k].date) == key;
      var i, j := Locate(groups, k);
      assert KeyOf(g, out[i].date) == key;
    }
    forall key | key in outKeys ensures key in KeySet(g, bars) {
      var i :| 0 <= i < |out| && KeyOf(g, out[i].date) == key;
      MemberInConcat(groups, i, 0);
      var k :| 0 <= k < |bars| && bars[k] == groups[i][0];
      assert KeyOf(g, bars[k].date) == key;
    }
  }

  /** The bucket keys are exactly the keys of the rows: no bucket without rows, no row without a bucket. */
  lemma {:induction false} BucketKeysAreRowKeys(g: Granularity, bars: seq<Bar>)
    ensures var out := Resample(g, bars);
            (set i | 0 <= i < |out| :: KeyOf(g, out[i].date)) == KeySet(g, bars)
  {
    BucketKeys(g, bars);
    LabelKeysAreRowKeys(g, Groups(g, bars), Resample(g, bars), bars);
  }

  /** A strictly ascending sequence of keys has as many elements as distinct keys. */
  lemma {:induction false} DistinctKeysCount(keys: seq<Key>)
    requires forall i, j :: 0 <= i < j < |keys| ==> KeyBefore(keys[i], keys[j])
    ensures |set k | k in keys| == |keys|
  {
    if |keys| > 0 {
      var tail := keys[1..];
      DistinctKeysCount(tail);
      assert (set k | k in keys) == {keys[0]} + (set k | k in tail);
      assert keys[0] !in (set k | k in tail) by {
        forall i | 0 <= i < |tail| ensures tail[i] != keys[0] {
          assert tail[i] == keys[i + 1];
        }
      }
    }
  }

  lemma {:induction false} CountDistinctLabels(g: Granularity, out: seq<Bar>)
    requires forall i, j :: 0 <= i < j < |out| ==> KeyBefore(KeyOf(g, out[i].date), KeyOf(g, out[j].date))
    ensures |set i | 0 <= i < |out| :: KeyOf(g, out[i].date)| == |out|
  {
    var keys := seq(|out|, i requires 0 <= i < |out| => KeyOf(g, out[i].date));
    DistinctKeysCount(keys);
    assert (set k | k in keys) == (set i | 0 <= i < |out| :: KeyOf(g, out[i].date)) by {
      forall x | x in (set i | 0 <= i < |out| :: KeyOf(g, out[i].date)) ensures x in keys {
        var i :| 0 <= i < |out| && KeyOf(g, out[i].date) == x;
        assert keys[i] == x;
      }
    }
  }

  /** An ascending series yields exactly one bucket per calendar key present in it. */
  lemma {:induction false} OneBucketPerKey(g: Granularity, bars: seq<Bar>)
    requires Ascending(bars)
    ensures |Resample(g, bars)| == |KeySet(g, bars)|
  {
    BucketsAscending(g, bars);
    BucketKeysAreRowKeys(g, bars);
    CountDistinctLabels(g, Resample(g, bars));
  }

  lemma {:induction false} MembershipByKey(g: Granularity, groups: seq<seq<Bar>>, out: seq<Bar>, bars: seq<Bar>)
    requires Partitioned(g, groups, bars) && Labelled(g, groups, out) && StrictlyAscendingKeys(g, groups)
    ensures forall i, k :: 0 <= i < |out| && 0 <= k < |bars| ==>
              (bars[k] in groups[i] <==> KeyOf(g, bars[k].date) == KeyOf(g, out[i].date))
  {
    forall i, k | 0 <= i < |out| && 0 <= k < |bars|
      ensures bars[k] in groups[i] <==> KeyOf(g, bars[k].date) == KeyOf(g, out[i].date)
    {
      var i', j := Locate(groups, k);
      if bars[k] in groups[i] {
        var j' :| 0 <= j' < |groups[i]| && groups[i][j'] == bars[k];
      }
      if KeyOf(g, bars[k].date) == KeyOf(g, out[i].date) {
        assert GroupKey(g, groups[i']) == GroupKey(g, groups[i]);
        assert !(i' < i) && !(i < i');
      }
    }
  }

  /**
   * In an ascending series the rows are partitioned, in order, among the
   * buckets, and a row belongs to a bucket exactly when it has the
   * bucket's key.
   */
  lemma {:induction false} RowInBucketIffKey(g: Granularity, bars: seq<Bar>)
    requires Ascending(bars)
    ensures Concat(Groups(g, bars)) == bars
    ensures var groups := Groups(g, bars); var out := Resample(g, bars);
            forall i, k :: 0 <= i < |out| && 0 <= k < |bars| ==>
              (bars[k] in groups[i] <==> KeyOf(g, bars[k].date) == KeyOf(g, out[i].date))
  {
    GroupsAscending(g, bars);
    BucketKeys(g, bars);
    MembershipByKey(g, Groups(g, bars), Resample(g, bars), bars);
  }

  /** Resampling neither creates nor loses volume. */
  lemma {:induction false} VolumeConserved(g: Granularity, bars: seq<Bar>)
    ensures SumVolume(Resample(g, bars)) == SumVolume(bars)
  {
    var groups := Groups(g, bars);
    SumVolumeGroups(groups, Resample(g, bars));
  }

  /** Bucket `i` opens at group `i`'s first Open and closes at its last Close. */
  predicate Bounded(groups: seq<seq<Bar>>, out: seq<Bar>)
    requires forall i :: 0 <= i < |groups| ==> |groups[i]| > 0
  {
    |out| == |groups|
    && forall i :: 0 <= i < |out| ==>
         out[i].open == groups[i][0].open && out[i].close == groups[i][|groups[i]| - 1].close
  }

  lemma BucketEnds(g: Granularity, bars: seq<Bar>)
    ensures Partitioned(g, Groups(g, bars), bars)
    ensures Bounded(Groups(g, bars), Resample(g, bars))
  {
  }

  lemma {:induction false} EndsOfPartition(g: Granularity, groups: seq<seq<Bar>>, out: seq<Bar>, bars: seq<Bar>)
    requires Partitioned(g, groups, bars) && Bounded(groups, out)
    ensures out == [] <==> bars == []
    ensures |bars| > 0 ==> out[0].open == bars[0].open && out[|out| - 1].close == bars[|bars| - 1].close
  {
    ConcatLength(groups);
    if |bars| > 0 {
      ConcatEnds(groups);
    }
  }

  /**
   * No rows give no buckets (the "No data available" warning); otherwise
   * the first bucket opens at the first Open and the last bucket closes
   * at the last Close.
   */
  lemma {:induction false} SeriesEnds(g: Granularity, bars: seq<Bar>)
    ensures Resample(g, bars) == [] <==> bars == []
    ensures |bars| > 0 ==> var out := Resample(g, bars);
              && out[0].open == bars[0].open
              && out[|out| - 1].close == bars[|bars| - 1].close
  {
    BucketEnds(g, bars);
    EndsOfPartition(g, Groups(g, bars), Resample(g, bars), bars);
  }
}

/** Worked examples of the monthly and quarterly views. */
module ResamplerExamples {
  import opened Calendar
  import opened Resampler

  /** Five trading days across the end of January 2024, closing 100, 102, 98, 105, 110. */
  predicate AcrossJanuaryEnd(b0: Bar, b1: Bar, b2: Bar, b3: Bar, b4: Bar) {
    && b0.date == CalendarDate(2024, 1, 30) && b0.close == 100.0
    && b1.date == CalendarDate(2024, 1, 31) && b1.close == 102.0
    && b2.date == CalendarDate(2024, 2, 1) && b2.close == 98.0
    && b3.date == CalendarDate(2024, 2, 2) && b3.close == 105.0
    && b4.date == CalendarDate(2024, 2, 5) && b4.close == 110.0
  }

  lemma {:induction false} AcrossJanuaryEndGroups(b0: Bar, b1: Bar, b2: Bar, b3: Bar, b4: Bar)
    requires AcrossJanuaryEnd(b0, b1, b2, b3, b4)
    ensures Groups(Monthly, [b0, b1, b2, b3, b4]) == [[b0, b1], [b2, b3, b4]]
    ensures Groups(Quarterly, [b0, b1, b2, b3, b4]) == [[b0, b1, b2, b3, b4]]
  {
    assert [b4][1..] == [];
    assert [b3, b4][1..] == [b4];
    assert [b2, b3, b4][1..] == [b3, b4];
    assert [b1, b2, b3, b4][1..] == [b2, b3, b4];
    assert [b0, b1, b2, b3, b4][1..] == [b1, b2, b3, b4];
    assert [[b4]][1..] == [] && [b3] + [b4] == [b3, b4];
    assert [[b3, b4]][1..] == [] && [b2] + [b3, b4] == [b2, b3, b4];
    assert [[b2, b3, b4]][1..] == [] && [b1] + [b2, b3, b4] == [b1, b2, b3, b4];
    assert [[b1, b2, b3, b4]][1..] == [] && [b0] + [b1, b2, b3, b4] == [b0, b1, b2, b3, b4];
    assert [[b1]] + [[b2, b3, b4]] == [[b1], [b2, b3, b4]];
    assert [[b1], [b2, b3, b4]][1..] == [[b2, b3, b4]] && [b0] + [b1] == [b0, b1];
    assert Groups(Monthly, [b4]) == [[b4]];
    assert Groups(Monthly, [b3, b4]) == [[b3, b4]];
    assert Groups(Monthly, [b2, b3, b4]) == [[b2, b3, b4]];
    assert Groups(Monthly, [b1, b2, b3, b4]) == [[b1], [b2, b3, b4]];
    assert Groups(Quarterly, [b4]) == [[b4]];
    assert Groups(Quarterly, [b3, b4]) == [[b3, b4]];
    assert Groups(Quarterly, [b2, b3, b4]) == [[b2, b3, b4]];
    assert Groups(Quarterly, [b1, b2, b3, b4]) == [[b1, b2, b3, b4]];
  }

  /**
   * The monthly view of those days: two bars, labelled with the months'
   * last days (2024 is a leap year); the first closes on January's last
   * close (102), the second on the last close overall (110).
   */
  lemma {:induction false} AcrossJanuaryEndMonthly(b0: Bar, b1: Bar, b2: Bar, b3: Bar, b4: Bar)
    requires AcrossJanuaryEnd(b0, b1, b2, b3, b4)
    ensures var out := Resample(Monthly, [b0, b1, b2, b3, b4]);
            && |out| == 2
            && out[0].date == CalendarDate(2024, 1, 31) && out[1].date == CalendarDate(2024, 2, 29)
            && out[0].open == b0.open && out[0].close == 102.0
            && out[1].open == b2.open && out[1].close == 110.0
            && out[0].volume == b0.volume + b1.volume
            && out[1].volume == b2.volume + b3.volume + b4.volume
  {
    AcrossJanuaryEndGroups(b0, b1, b2, b3, b4);
    var out := Resample(Monthly, [b0, b1, b2, b3, b4]);
    assert out[0] == Aggregate(Monthly, [b0, b1]);
    assert out[1] == Aggregate(Monthly, [b2, b3, b4]);
    JanuaryBar(b0, b1);
    FebruaryBar(b2, b3, b4);
  }

  lemma JanuaryBar(b0: Bar, b1: Bar)
    requires b0.date == CalendarDate(2024, 1, 30) && b1.date == CalendarDate(2024, 1, 31)
    ensures var a := Aggregate(Monthly, [b0, b1]);
            && a.date == CalendarDate(2024, 1, 31) && a.open == b0.open && a.close == b1.close
            && a.volume == b0.volume + b1.volume
  {
    assert [b1][1..] == [] && [b0, b1][1..] == [b1];
    assert SumVolume([b1]) == b1.volume + SumVolume([]);
  }

  lemma FebruaryBar(b2: Bar, b3: Bar, b4: Bar)
    requires b2.date == CalendarDate(2024, 2, 1) && b3.date == CalendarDate(2024, 2, 2)
    requires b4.date == CalendarDate(2024, 2, 5)
    ensures var a := Aggregate(Monthly, [b2, b3, b4]);
            && a.date == CalendarDate(2024, 2, 29) && a.open == b2.open && a.close == b4.close
            && a.volume == b2.volume + b3.volume + b4.volume
  {
    assert [b4][1..] == [] && [b3, b4][1..] == [b4] && [b2, b3, b4][1..] == [b3, b4];
    assert SumVolume([b4]) == b4.volume + SumVolume([]);
    assert SumVolume([b3, b4]) == b3.volume + b4.volume;
  }

  /** The quarterly view of the same days: one bar for the first quarter, ending on 31 March, with all the volume. */
  lemma {:induction false} AcrossJanuaryEndQuarterly(b0: Bar, b1: Bar, b2: Bar, b3: Bar, b4: Bar)
    requires AcrossJanuaryEnd(b0, b1, b2, b3, b4)
    ensures var out := Resample(Quarterly, [b0, b1, b2, b3, b4]);
            && |out| == 1 && out[0].date == CalendarDate(2024, 3, 31)
            && out[0].open == b0.open && out[0].close == 110.0
            && out[0].volume == b0.volume + b1.volume + b2.volume + b3.volume + b4.volume
  {
    AcrossJanuaryEndGroups(b0, b1, b2, b3, b4);
    var out := Resample(Quarterly, [b0, b1, b2, b3, b4]);
    assert out[0] == Aggregate(Quarterly, [b0, b1, b2, b3, b4]);
    assert [b4][1..] == [] && [b3, b4][1..] == [b4] && [b2, b3, b4][1..] == [b3, b4];
    assert [b1, b2, b3, b4][1..] == [b2, b3, b4] && [b0, b1, b2, b3, b4][1..] == [b1, b2, b3, b4];
    assert SumVolume([b4]) == b4.volume + SumVolume([]);
    assert SumVolume([b3, b4]) == b3.volume + b4.volume;
    assert SumVolume([b2, b3, b4]) == b2.volume + b3.volume + b4.volume;
    assert SumVolume([b1, b2, b3, b4]) == b1.volume + b2.volume + b3.volume + b4.volume;
  }
}
