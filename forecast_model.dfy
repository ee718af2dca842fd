/** The base of the forecasting models: the chronological split, the calendar
    feature rows derived from timestamps, the forecast index starting at the last
    history timestamp, and the weighted error metrics. */
module ForecastModel {
  import opened Wrappers
  import opened Calendar
  import opened Sequences
  import opened Frames

  class ForecastModel {
    const city: Frame
    const trainSize: real
    const dataset: Frame
    var trainDataset: Frame
    var testDataset: Frame

    constructor (city: Frame, trainSize: real)
      requires city.WellFormed()
      ensures this.city == city && this.trainSize == trainSize && dataset == city
      ensures trainDataset == TrainPart(city, trainSize)
      ensures testDataset == TestPart(city, trainSize)
    {
      this.city := city;
      this.trainSize := trainSize;
      dataset := city;
      new;
      SplitData();
    }

    /** Cuts the dataset at `int(len(df_hours) * train_size)` by position. */
    method SplitData()
      requires dataset == city && city.WellFormed()
      modifies this
      ensures trainDataset == TrainPart(dataset, trainSize)
      ensures testDataset == TestPart(dataset, trainSize)
      ensures trainDataset.dates + testDataset.dates == dataset.dates
    {
      var splitPoint := SplitPoint(|city.dates|, trainSize);
      trainDataset := Head(dataset, splitPoint);
      testDataset := Tail(dataset, splitPoint);
      SplitIsPartition(dataset, trainSize);
    }
  }

  /** One row of `create_features_from_date`. */
  datatype DateFeatures = DateFeatures(hour: int, dayOfWeek: int, dayOfMonth: int, isWeekend: int, isSunday: int)

  function FeaturesOf(t: Timestamp): DateFeatures {
    DateFeatures(Hour(t), DayOfWeek(t), DayOfMonth(t),
                 if DayOfWeek(t) >= 5 then 1 else 0,
                 if DayOfWeek(t) == 6 then 1 else 0)
  }

  /** `create_features_from_date`: one row per timestamp, in order. */
  function CreateFeaturesFromDate(dates: seq<Timestamp>): (rows: seq<DateFeatures>)
    ensures |rows| == |dates|
    ensures forall i :: 0 <= i < |dates| ==>
      && rows[i].hour == Hour(dates[i]) && 0 <= rows[i].hour <= 23
      && rows[i].dayOfWeek == DayOfWeek(dates[i]) && 0 <= rows[i].dayOfWeek <= 6
      && rows[i].dayOfMonth == DayOfMonth(dates[i]) && 1 <= rows[i].dayOfMonth <= 31
      && (rows[i].isWeekend == 1 <==> rows[i].dayOfWeek >= 5)
      && (rows[i].isSunday == 1 <==> rows[i].dayOfWeek == 6)
      && rows[i].isWeekend in {0, 1} && rows[i].isSunday in {0, 1}
      && (rows[i].isSunday == 1 ==> rows[i].isWeekend == 1)
  {
    seq(|dates|, i requires 0 <= i < |dates| => FeaturesOf(dates[i]))
  }

  /** A feature row depends on its own timestamp only: the rows of a
      concatenation are the concatenation of the rows. */
  lemma FeaturesArePointwise(a: seq<Timestamp>, b: seq<Timestamp>)
    ensures CreateFeaturesFromDate(a + b) == CreateFeaturesFromDate(a) + CreateFeaturesFromDate(b)
  {
    var l, r := CreateFeaturesFromDate(a + b), CreateFeaturesFromDate(a) + CreateFeaturesFromDate(b);
    forall i | 0 <= i < |l| ensures l[i] == r[i] {
      if i < |a| { assert (a + b)[i] == a[i]; } else { assert (a + b)[i] == b[i - |a|]; }
    }
  }

  /** `get_DatetimeIndex_forecasting`: `prediction_length` hourly timestamps
      starting AT the last history timestamp; with no end given, the
      left-inclusive option removes nothing. */
  function ForecastIndexForecasting<V>(serie: Series<V>, predictionLength: int): (r: Result<seq<Timestamp>>)
    ensures r.Err? <==> |serie.index| == 0
    ensures r.Err? ==> r.error == EmptySeries
    ensures r.Ok? ==> |r.value| == Max(predictionLength, 0)
    ensures r.Ok? ==> forall i :: 0 <= i < |r.value| ==> r.value[i] == LastStamp(serie) + i
    ensures r.Ok? && predictionLength >= 1 ==> r.value[0] == LastStamp(serie)
  {
    if |serie.index| == 0 then Err(EmptySeries) else Ok(DateRange(LastStamp(serie), predictionLength))
  }

  // ---------------------------------------------------------------------------
  // Weighted metrics

  /** The sample weights: 1 everywhere, and 0 at the interpolated positions
      when they are excluded. */
  function Weights(n: nat, exclude: bool, interpolated: set<nat>): (w: seq<real>)
    ensures |w| == n
    ensures forall i :: 0 <= i < n ==> (w[i] == 0.0 <==> exclude && i in interpolated)
    ensures forall i :: 0 <= i < n ==> w[i] == 0.0 || w[i] == 1.0
  {
    seq(n, i => if exclude && i in interpolated then 0.0 else 1.0)
  }

  function Sum(w: seq<real>): real {
    if |w| == 0 then 0.0 else Sum(w[..|w| - 1]) + w[|w| - 1]
  }

  function WeightedSum(w: seq<real>, e: seq<real>): real
    requires |w| == |e|
  {
    if |w| == 0 then 0.0 else WeightedSum(w[..|w| - 1], e[..|e| - 1]) + w[|w| - 1] * e[|e| - 1]
  }

  function SquaredErrors(reality: seq<real>, predicted: seq<real>): (e: seq<real>)
    requires |reality| == |predicted|
    ensures |e| == |reality|
  {
    seq(|reality|, i requires 0 <= i < |reality| => (reality[i] - predicted[i]) * (reality[i] - predicted[i]))
  }

  function AbsoluteErrors(reality: seq<real>, predicted: seq<real>): (e: seq<real>)
    requires |reality| == |predicted|
    ensures |e| == |reality|
  {
    seq(|reality|, i requires 0 <= i < |reality| =>
      if reality[i] >= predicted[i] then reality[i] - predicted[i] else predicted[i] - reality[i])
  }

  datatype MetricKind = Squared | Absolute

  function Errors(kind: MetricKind, reality: seq<real>, predicted: seq<real>): (e: seq<real>)
    requires |reality| == |predicted|
    ensures |e| == |reality|
  {
    match kind
    case Squared => SquaredErrors(reality, predicted)
    case Absolute => AbsoluteErrors(reality, predicted)
  }

  /** `mean_squared_error` / `mean_absolute_error` with sample weights: the
      weighted average Σ w·err / Σ w. sklearn refuses inputs of different
      lengths and empty inputs, and numpy refuses weights that sum to zero. */
  function WeightedMetric(kind: MetricKind, reality: seq<real>, predicted: seq<real>, w: seq<real>): Result<real>
    requires |w| == |reality|
  {
    if |reality| != |predicted| then Err(LengthMismatch)
    else if |reality| == 0 then Err(NoSamples)
    else if Sum(w) == 0.0 then Err(ZeroWeights)
    else Ok(WeightedSum(w, Errors(kind, reality, predicted)) / Sum(w))
  }

  /** The metric dictionary `get_metrics` returns, or the error it raises. */
  function Metrics(metrics: string, reality: seq<real>, predicted: seq<real>, w: seq<real>): Result<map<string, real>>
    requires |w| == |reality|
  {
    var mse := WeightedMetric(Squared, reality, predicted, w);
    var mae := WeightedMetric(Absolute, reality, predicted, w);
    if metrics == "all" then
      if mse.Err? then Err(mse.error) else if mae.Err? then Err(mae.error)
      else Ok(map["mse" := mse.value, "mae" := mae.value])
    else if metrics == "mse" then
      if mse.Err? then Err(mse.error) else Ok(map["mse" := mse.value])
    else if metrics == "mae" then
      if mae.Err? then Err(mae.error) else Ok(map["mae" := mae.value])
    else Ok(map[])
  }

  /** The keys `get_metrics` returns for a metric name. */
  function MetricKeys(metrics: string): set<string> {
    if metrics == "all" then {"mse", "mae"}
    else if metrics == "mse" then {"mse"}
    else if metrics == "mae" then {"mae"}
    else {}
  }

  /** `'all'` gives both keys, `'mse'` and `'mae'` one each, any other name no
      key and no error; the value under each key is the weighted metric. */
  lemma MetricSelection(metrics: string, reality: seq<real>, predicted: seq<real>, w: seq<real>)
    requires |w| == |reality|
    ensures var r := Metrics(metrics, reality, predicted, w);
      && (r.Ok? ==> r.value.Keys == MetricKeys(metrics))
      && (metrics !in {"all", "mse", "mae"} ==> r == Ok(map[]))
      && (r.Err? <==> metrics in {"all", "mse", "mae"} && WeightedMetric(Squared, reality, predicted, w).Err?)
      && (r.Ok? && "mse" in r.value ==> Ok(r.value["mse"]) == WeightedMetric(Squared, reality, predicted, w))
      && (r.Ok? && "mae" in r.value ==> Ok(r.value["mae"]) == WeightedMetric(Absolute, reality, predicted, w))
  {
  }

  lemma {:induction false} SumNonNegative(w: seq<real>)
    requires forall i :: 0 <= i < |w| ==> w[i] >= 0.0
    ensures Sum(w) >= 0.0
  {
    if |w| > 0 { SumNonNegative(w[..|w| - 1]); }
  }

  lemma {:induction false} WeightedSumNonNegative(w: seq<real>, e: seq<real>)
    requires |w| == |e|
    requires forall i :: 0 <= i < |w| ==> w[i] >= 0.0 && e[i] >= 0.0
    ensures WeightedSum(w, e) >= 0.0
  {
    if |w| > 0 { WeightedSumNonNegative(w[..|w| - 1], e[..|e| - 1]); }
  }

  lemma {:induction false} WeightedSumZero(w: seq<real>, e: seq<real>)
    requires |w| == |e|
    requires forall i :: 0 <= i < |w| ==> w[i] == 0.0 || e[i] == 0.0
    ensures WeightedSum(w, e) == 0.0
  {
    if |w| > 0 { WeightedSumZero(w[..|w| - 1], e[..|e| - 1]); }
  }

  /** Both metrics are non-negative for non-negative weights. */
  lemma MetricNonNegative(kind: MetricKind, reality: seq<real>, predicted: seq<real>, w: seq<real>)
    requires |w| == |reality|
    requires forall i :: 0 <= i < |w| ==> w[i] >= 0.0
    ensures WeightedMetric(kind, reality, predicted, w).Ok? ==> WeightedMetric(kind, reality, predicted, w).value >= 0.0
  {
    if |reality| == |predicted| && |reality| > 0 && Sum(w) != 0.0 {
      var e := Errors(kind, reality, predicted);
      forall i | 0 <= i < |e| ensures e[i] >= 0.0 {
        var d := reality[i] - predicted[i];
        assert d * d >= 0.0;
      }
      WeightedSumNonNegative(w, e);
      SumNonNegative(w);
    }
  }

  /** Both metrics are 0 when the prediction equals reality at every point of
      positive weight, whatever happens at the zero-weight points. */
  lemma MetricZeroWhenExact(kind: MetricKind, reality: seq<real>, predicted: seq<real>, w: seq<real>)
    requires |w| == |reality| == |predicted|
    requires forall i :: 0 <= i < |w| && w[i] != 0.0 ==> reality[i] == predicted[i]
    ensures WeightedMetric(kind, reality, predicted, w).Ok? ==> WeightedMetric(kind, reality, predicted, w).value == 0.0
  {
    WeightedSumZero(w, Errors(kind, reality, predicted));
  }

  /** With every weight 0 (all points interpolated), no metric is returned:
      `get_metrics` raises instead of answering 0. */
  lemma {:induction false} AllInterpolatedFails(kind: MetricKind, reality: seq<real>, predicted: seq<real>,
                                                interpolated: set<nat>)
    requires |reality| == |predicted| > 0
    requires forall i: nat :: i < |reality| ==> i in interpolated
    ensures WeightedMetric(kind, reality, predicted, Weights(|reality|, true, interpolated)) == Err(ZeroWeights)
  {
    AllZeroSum(Weights(|reality|, true, interpolated));
  }

  lemma {:induction false} AllZeroSum(w: seq<real>)
    requires forall i :: 0 <= i < |w| ==> w[i] == 0.0
    ensures Sum(w) == 0.0
  {
    if |w| > 0 { AllZeroSum(w[..|w| - 1]); }
  }

  /** Σ w·e over a weight array by a loop. */
  method WeightedTotals(w: array<real>, e: seq<real>) returns (weighted: real, total: real)
    requires w.Length == |e|
    ensures weighted == WeightedSum(w[..], e) && total == Sum(w[..])
  {
    weighted, total := 0.0, 0.0;
    var i := 0;
    while i < w.Length
      invariant 0 <= i <= w.Length
      invariant weighted == WeightedSum(w[..i], e[..i]) && total == Sum(w[..i])
    {
      assert w[..i + 1][..i] == w[..i] && e[..i + 1][..i] == e[..i];
      weighted, total := weighted + w[i] * e[i], total + w[i];
      i := i + 1;
    }
    assert w[..] == w[..w.Length] && e == e[..w.Length];
  }

  /** One weighted metric over a weight array, with sklearn's and numpy's error
      conditions. */
  method ComputeMetric(kind: MetricKind, reality: seq<real>, predicted: seq<real>, w: array<real>)
    returns (r: Result<real>)
    requires w.Length == |reality|
    ensures r == WeightedMetric(kind, reality, predicted, w[..])
  {
    if |reality| != |predicted| { return Err(LengthMismatch); }
    if |reality| == 0 { return Err(NoSamples); }
    var weighted, total := WeightedTotals(w, Errors(kind, reality, predicted));
    if total == 0.0 { return Err(ZeroWeights); }
    r := Ok(weighted / total);
  }

  /** `get_metrics`: builds the weight series (1, then 0 at every interpolated
      position when `exclude_interpolation_weights`), then fills the dictionary
      with the selected metrics. `interpolated` is the interpolation detector
      applied to the reality series. Values are compared by position. */
  method GetMetrics(predicted: Series<real>, reality: Series<real>, metrics: string,
                    excludeInterpolationWeights: bool, interpolated: seq<real> -> set<nat>)
    returns (r: Result<map<string, real>>)
    ensures r == Metrics(metrics, reality.values, predicted.values,
                         Weights(|reality.values|, excludeInterpolationWeights, interpolated(reality.values)))
    ensures r.Ok? ==> r.value.Keys == MetricKeys(metrics)
  {
    var n := |reality.values|;
    var sampleWeight := new real[n](_ => 1.0);
    ghost var w := Weights(n, excludeInterpolationWeights, interpolated(reality.values));
    if excludeInterpolationWeights {
      var indices := interpolated(reality.values);
      var i := 0;
      while i < n
        invariant 0 <= i <= n && sampleWeight.Length == n
        invariant forall k :: 0 <= k < i ==> sampleWeight[k] == w[k]
        invariant forall k :: i <= k < n ==> sampleWeight[k] == 1.0
      {
        if i in indices { sampleWeight[i] := 0.0; }
        i := i + 1;
      }
    }
    assert sampleWeight[..] == w;
    MetricSelection(metrics, reality.values, predicted.values, w);
    var metricsDict: map<string, real> := map[];
    if metrics == "all" || metrics == "mse" {
      var mse := ComputeMetric(Squared, reality.values, predicted.values, sampleWeight);
      if mse.Err? { return Err(mse.error); }
      metricsDict := metricsDict["mse" := mse.value];
    }
    if metrics == "all" || metrics == "mae" {
      var mae := ComputeMetric(Absolute, reality.values, predicted.values, sampleWeight);
      if mae.Err? { return Err(mae.error); }
      metricsDict := metricsDict["mae" := mae.value];
    }
    r := Ok(metricsDict);
  }
}
