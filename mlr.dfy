/** The multiple-linear-regression strategy: one StandardScaler and one
    LinearRegression per station, on calendar features, lagged values shifted
    by the horizon, and one-hot weekday and weekend indicators. The fitted
    scaler and regression are uninterpreted; the model's files on disk are maps
    held by the strategy. */
module Mlr {
  import opened Wrappers
  import opened Calendar
  import opened Sequences
  import opened Frames
  import opened Tables
  import opened Estimators
  import opened PredictionSetup
  import opened StationMaps

  type Row = seq<real>

  /** The calendar columns that stay numeric: `hour`, `day_of_month`, `month`. */
  function CalendarTable(dates: seq<Timestamp>): (t: Table)
    ensures t.WellFormed() && t.height == |dates|
    ensures t.names == ["hour", "day_of_month", "month"]
    ensures forall i :: 0 <= i < |dates| ==>
      && t.columns[0][i] == Hour(dates[i]) as real
      && t.columns[1][i] == DayOfMonth(dates[i]) as real
      && t.columns[2][i] == Month(dates[i]) as real
  {
    Table(|dates|, ["hour", "day_of_month", "month"],
          [seq(|dates|, i requires 0 <= i < |dates| => Hour(dates[i]) as real),
           seq(|dates|, i requires 0 <= i < |dates| => DayOfMonth(dates[i]) as real),
           seq(|dates|, i requires 0 <= i < |dates| => Month(dates[i]) as real)])
  }

  /** The columns that are one-hot encoded: `day_of_week`, `is_weekend`,
      `is_sunday`, as integer codes (a boolean is 0 or 1). */
  function DayCodes(dates: seq<Timestamp>): (c: seq<int>)
    ensures |c| == |dates| && forall i :: 0 <= i < |dates| ==> c[i] == DayOfWeek(dates[i])
  {
    seq(|dates|, i requires 0 <= i < |dates| => DayOfWeek(dates[i]))
  }

  function WeekendCodes(dates: seq<Timestamp>): (c: seq<int>)
    ensures |c| == |dates| && forall i :: 0 <= i < |dates| ==> c[i] == (if IsWeekend(dates[i]) then 1 else 0)
  {
    seq(|dates|, i requires 0 <= i < |dates| => if IsWeekend(dates[i]) then 1 else 0)
  }

  function SundayCodes(dates: seq<Timestamp>): (c: seq<int>)
    ensures |c| == |dates| && forall i :: 0 <= i < |dates| ==> c[i] == (if IsSunday(dates[i]) then 1 else 0)
  {
    seq(|dates|, i requires 0 <= i < |dates| => if IsSunday(dates[i]) then 1 else 0)
  }

  function LagName(k: nat): string {
    "lag_" + NatToString(k)
  }

  /** No column name begins like a lag name. */
  predicate LagFree(names: seq<string>) {
    forall c :: 0 <= c < |names| ==> |names[c]| < 4 || names[c][..4] != "lag_"
  }

  /** The lag names are pairwise different and are not found among lag-free
      names, such as the calendar columns. */
  lemma LagNamesDistinct(k: nat, m: nat, names: seq<string>)
    requires LagFree(names)
    ensures LagName(k) == LagName(m) ==> k == m
    ensures LagName(k) !in names
  {
    if LagName(k) == LagName(m) {
      assert NatToString(k) == LagName(k)[4..] == LagName(m)[4..] == NatToString(m);
      NatToStringInjective(k, m);
    }
    assert LagName(k)[..4] == "lag_";
    forall c | 0 <= c < |names| ensures names[c] != LagName(k) {
      if |names[c]| >= 4 {
        assert names[c][..4] != LagName(k)[..4];
      }
    }
  }

  lemma CalendarNamesLagFree()
    ensures LagFree(["hour", "day_of_month", "month"])
  {
    var names := ["hour", "day_of_month", "month"];
    assert names[0][0] == 'h' && names[1][0] == 'd' && names[2][0] == 'm';
  }

  /** `df['lag_1'] = cols[0]; ...; df['lag_n'] = cols[n - 1]` */
  function WithLags(t: Table, cols: seq<seq<real>>): (r: Table)
    requires t.WellFormed() && forall k :: 0 <= k < |cols| ==> |cols[k]| == t.height
    ensures r.WellFormed() && r.height == t.height
  {
    if |cols| == 0 then t
    else Assign(WithLags(t, cols[..|cols| - 1]), LagName(|cols|), cols[|cols| - 1])
  }

  function LagNames(n: nat): (r: seq<string>)
    ensures |r| == n && forall k :: 0 <= k < n ==> r[k] == LagName(k + 1)
  {
    seq(n, k requires 0 <= k < n => LagName(k + 1))
  }

  /** On a table without lag columns, the assignments append the lag columns in
      order. */
  lemma {:induction false} WithLagsAppends(t: Table, cols: seq<seq<real>>)
    requires t.WellFormed() && forall k :: 0 <= k < |cols| ==> |cols[k]| == t.height
    requires LagFree(t.names)
    ensures WithLags(t, cols).names == t.names + LagNames(|cols|)
    ensures WithLags(t, cols).columns == t.columns + cols
  {
    if |cols| > 0 {
      var n := |cols|;
      WithLagsAppends(t, cols[..n - 1]);
      NewLagName(t.names, n);
      LagNamesSnoc(t.names, n);
      SnocLast(t.columns, cols);
    }
  }

  lemma LagNamesSnoc(a: seq<string>, n: nat)
    requires n > 0
    ensures (a + LagNames(n - 1)) + [LagName(n)] == a + LagNames(n)
  {
    assert LagNames(n - 1) + [LagName(n)] == LagNames(n);
  }

  lemma SnocLast<T>(a: seq<T>, b: seq<T>)
    requires |b| > 0
    ensures (a + b[..|b| - 1]) + [b[|b| - 1]] == a + b
  {
    assert b[..|b| - 1] + [b[|b| - 1]] == b;
  }

  /** `lag_n` is none of the names before it. */
  lemma NewLagName(names: seq<string>, n: nat)
    requires LagFree(names) && n >= 1
    ensures LagName(n) !in names + LagNames(n - 1)
  {
    LagNamesDistinct(n, n, names);
    var earlier := LagNames(n - 1);
    forall k | 0 <= k < |earlier| ensures earlier[k] != LagName(n) {
      LagNamesDistinct(k + 1, n, names);
    }
  }

  /** The columns the code one-hot encodes: `day_of_week` (0 to 6),
      `is_weekend` and `is_sunday` (booleans, 0 or 1). */
  function EncodedColumns(dates: seq<Timestamp>): (cols: seq<Encoded>)
    ensures |cols| == 3 && forall k :: 0 <= k < 3 ==> |cols[k].codes| == |dates|
  {
    [Encoded("day_of_week", DayCodes(dates), 0, 7, IntLabel),
     Encoded("is_weekend", WeekendCodes(dates), 0, 2, BoolLabel),
     Encoded("is_sunday", SundayCodes(dates), 0, 2, BoolLabel)]
  }

  /** `pd.get_dummies(df, columns=[...], drop_first=True)` as the code calls it:
      each encoded column's categories are those found in `dates` themselves,
      and the first of them is dropped. */
  function ObservedDummies(t: Table, dates: seq<Timestamp>): (r: Table)
    requires t.WellFormed() && |dates| == t.height
    ensures r.WellFormed() && r.height == t.height
  {
    GetDummies(t, EncodedColumns(dates), false)
  }

  /** The observed encoding, column by column. */
  lemma ObservedDummiesLayout(t: Table, dates: seq<Timestamp>)
    requires t.WellFormed() && |dates| == t.height
    ensures ObservedDummies(t, dates) ==
      var t1 := AppendDummies(t, "day_of_week", DayCodes(dates), DropFirst(Categories(DayCodes(dates), 0, 7)), IntLabel);
      var t2 := AppendDummies(t1, "is_weekend", WeekendCodes(dates), DropFirst(Categories(WeekendCodes(dates), 0, 2)), BoolLabel);
      AppendDummies(t2, "is_sunday", SundayCodes(dates), DropFirst(Categories(SundayCodes(dates), 0, 2)), BoolLabel)
  {
    GetDummiesOfThree(t, EncodedColumns(dates), false);
  }

  /** `day_of_week_1 ... day_of_week_6, is_weekend_True, is_sunday_True` */
  function DummyNames(): (r: seq<string>)
    ensures |r| == 8
  {
    DummyNamesOf("day_of_week", DropFirst(Range(0, 7)), IntLabel)
      + DummyNamesOf("is_weekend", DropFirst(Range(0, 2)), BoolLabel)
      + DummyNamesOf("is_sunday", DropFirst(Range(0, 2)), BoolLabel)
  }

  /** The indicator columns over the declared categories. */
  function DummyColumns(dates: seq<Timestamp>): (r: seq<seq<real>>)
    ensures |r| == 8
    ensures forall d :: 1 <= d < 7 ==> r[d - 1] == Indicators(DayCodes(dates), d)
    ensures r[6] == Indicators(WeekendCodes(dates), 1) && r[7] == Indicators(SundayCodes(dates), 1)
  {
    IndicatorColumns(DayCodes(dates), DropFirst(Range(0, 7)))
      + IndicatorColumns(WeekendCodes(dates), DropFirst(Range(0, 2)))
      + IndicatorColumns(SundayCodes(dates), DropFirst(Range(0, 2)))
  }

  /** The same encoding over the declared categories (every weekday, both
      truth values), whatever `dates` hold: the encoding the prediction needs. */
  function DeclaredDummies(t: Table, dates: seq<Timestamp>): (r: Table)
    requires t.WellFormed() && |dates| == t.height
    ensures r.WellFormed() && r.height == t.height
  {
    GetDummies(t, EncodedColumns(dates), true)
  }

  /** The declared encoding appends the eight indicator columns after `t`'s own. */
  lemma DeclaredDummiesLayout(t: Table, dates: seq<Timestamp>)
    requires t.WellFormed() && |dates| == t.height
    ensures DeclaredDummies(t, dates).names == t.names + DummyNames()
    ensures DeclaredDummies(t, dates).columns == t.columns + DummyColumns(dates)
  {
    GetDummiesOfThree(t, EncodedColumns(dates), true);
  }

  /** The full feature layout: calendar columns, `lag_1 ... lag_L`, then the
      indicators. */
  function FeatureNames(lags: nat): seq<string> {
    ["hour", "day_of_month", "month"] + LagNames(lags) + DummyNames()
  }

  /** Where every weekday occurs, the categories found in the data are the
      declared ones, and the two encodings agree. */
  lemma ObservedIsDeclaredOnFullWeeks(t: Table, dates: seq<Timestamp>)
    requires t.WellFormed() && |dates| == t.height
    requires forall d :: 0 <= d < 7 ==> d in DayCodes(dates)
    ensures ObservedDummies(t, dates) == DeclaredDummies(t, dates)
  {
    CategoriesOfFullColumn(DayCodes(dates), 0, 7);
    FullWeekFlags(dates);
    GetDummiesOfFullColumns(t, EncodedColumns(dates));
  }

  lemma FullWeekFlags(dates: seq<Timestamp>)
    requires forall d :: 0 <= d < 7 ==> d in DayCodes(dates)
    ensures Categories(WeekendCodes(dates), 0, 2) == Range(0, 2)
    ensures Categories(SundayCodes(dates), 0, 2) == Range(0, 2)
  {
    var days := DayCodes(dates);
    assert 0 in days && 5 in days && 6 in days;
    var i0 :| 0 <= i0 < |dates| && days[i0] == 0;
    var i5 :| 0 <= i5 < |dates| && days[i5] == 5;
    var i6 :| 0 <= i6 < |dates| && days[i6] == 6;
    assert WeekendCodes(dates)[i0] == 0 && WeekendCodes(dates)[i5] == 1;
    assert SundayCodes(dates)[i0] == 0 && SundayCodes(dates)[i6] == 1;
    CategoriesOfFullColumn(WeekendCodes(dates), 0, 2);
    CategoriesOfFullColumn(SundayCodes(dates), 0, 2);
  }

  /** As the code encodes it, a window of hours that all fall on one weekday
      gets no indicator column at all. */
  lemma ObservedDummiesOfOneDay(t: Table, dates: seq<Timestamp>)
    requires t.WellFormed() && |dates| == t.height && |dates| > 0
    requires forall i :: 0 <= i < |dates| ==> DayOfWeek(dates[i]) == DayOfWeek(dates[0])
    ensures ObservedDummies(t, dates) == t
  {
    ObservedDummiesLayout(t, dates);
    OneDayCategories(dates);
    AppendNoDummies(t, "day_of_week", DayCodes(dates), IntLabel);
    AppendNoDummies(t, "is_weekend", WeekendCodes(dates), BoolLabel);
    AppendNoDummies(t, "is_sunday", SundayCodes(dates), BoolLabel);
  }

  /** Within one weekday, each encoded column holds a single category. */
  lemma OneDayCategories(dates: seq<Timestamp>)
    requires |dates| > 0
    requires forall i :: 0 <= i < |dates| ==> DayOfWeek(dates[i]) == DayOfWeek(dates[0])
    ensures DropFirst(Categories(DayCodes(dates), 0, 7)) == []
    ensures DropFirst(Categories(WeekendCodes(dates), 0, 2)) == []
    ensures DropFirst(Categories(SundayCodes(dates), 0, 2)) == []
  {
    OneDayFlags(dates);
    SingleCategory(DayCodes(dates), 0, 7, DayOfWeek(dates[0]));
    SingleCategory(WeekendCodes(dates), 0, 2, if DayOfWeek(dates[0]) >= 5 then 1 else 0);
    SingleCategory(SundayCodes(dates), 0, 2, if DayOfWeek(dates[0]) == 6 then 1 else 0);
  }

  lemma SingleCategory(codes: seq<int>, lo: int, hi: int, v: int)
    requires |codes| > 0 && forall i :: 0 <= i < |codes| ==> codes[i] == v
    requires lo <= v < hi
    ensures DropFirst(Categories(codes, lo, hi)) == []
  {
    CategoriesOfConstantColumn(codes, lo, hi, v);
  }

  lemma OneDayFlags(dates: seq<Timestamp>)
    requires |dates| > 0
    requires forall i :: 0 <= i < |dates| ==> DayOfWeek(dates[i]) == DayOfWeek(dates[0])
    ensures forall i :: 0 <= i < |dates| ==> WeekendCodes(dates)[i] == if DayOfWeek(dates[0]) >= 5 then 1 else 0
    ensures forall i :: 0 <= i < |dates| ==> SundayCodes(dates)[i] == if DayOfWeek(dates[0]) == 6 then 1 else 0
  {
  }

  /** `df[station].shift(k + prediction_length).fillna(0)`: the training value
      `k + prediction_length` rows earlier, and 0 before the first of them. */
  function TrainLag(y: seq<real>, k: nat, horizon: nat): (col: seq<real>)
    ensures |col| == |y|
    ensures forall i :: 0 <= i < |y| ==> col[i] == if i >= k + horizon then y[i - (k + horizon)] else 0.0
  {
    FillMissing(Shift(y, k + horizon), 0.0)
  }

  function TrainLags(y: seq<real>, lags: nat, horizon: nat): (cols: seq<seq<real>>)
    ensures |cols| == lags && forall k :: 0 <= k < lags ==> cols[k] == TrainLag(y, k + 1, horizon)
  {
    seq(lags, k requires 0 <= k < lags => TrainLag(y, k + 1, horizon))
  }

  /** The training design matrix `X` of one station (with `ds` and the station's
      own column dropped). */
  function TrainingFeatures(dates: seq<Timestamp>, y: seq<real>, lags: nat, horizon: nat): (x: Table)
    requires |y| == |dates|
    ensures x.WellFormed() && x.height == |dates|
  {
    ObservedDummies(WithLags(CalendarTable(dates), TrainLags(y, lags, horizon)), dates)
  }

  /** Every feature the training frame has is named `WithLags` and the declared
      indicators when the training data cover every weekday; this is the layout
      `feature_names_in_` records. */
  lemma TrainingFeatureLayout(dates: seq<Timestamp>, y: seq<real>, lags: nat, horizon: nat)
    requires |y| == |dates|
    requires forall d :: 0 <= d < 7 ==> d in DayCodes(dates)
    ensures TrainingFeatures(dates, y, lags, horizon).names == FeatureNames(lags)
  {
    var base := CalendarTable(dates);
    CalendarNamesLagFree();
    var cols := TrainLags(y, lags, horizon);
    WithLagsAppends(base, cols);
    ObservedIsDeclaredOnFullWeeks(WithLags(base, cols), dates);
    DeclaredDummiesLayout(WithLags(base, cols), dates);
  }

  /** One lag column of the forecast frame:
      `history.shift(k).fillna(0).values[-len(future):]` when `k < len(history)`,
      else the constant 0. None when the slice is shorter than the future frame,
      where pandas refuses the assignment. */
  function ForecastLag(history: seq<real>, k: nat, horizon: nat): (r: Option<seq<real>>)
    requires horizon >= 1
    ensures r.None? <==> k < |history| < horizon
    ensures r.Some? ==> |r.value| == horizon
    ensures r.Some? && k < |history| ==> forall j :: 0 <= j < horizon ==>
      r.value[j] == if |history| - horizon + j >= k then history[|history| - horizon + j - k] else 0.0
    ensures r.Some? && k >= |history| ==> r.value == Zeros(horizon)
  {
    if k < |history| then
      var col := Last(FillMissing(Shift(history, k), 0.0), horizon);
      if |col| == horizon then Some(col) else None
    else Some(Zeros(horizon))
  }

  /** Some lag column cannot be assigned: `lag_1` already fails exactly when
      any does. */
  predicate LagsFail(history: seq<real>, lags: nat, horizon: nat) {
    lags >= 1 && 1 < |history| < horizon
  }

  lemma LagsFailAt(history: seq<real>, lags: nat, horizon: nat, k: nat)
    requires horizon >= 1 && 1 <= k <= lags
    ensures ForecastLag(history, k, horizon).None? ==> LagsFail(history, lags, horizon)
    ensures !LagsFail(history, lags, horizon) ==> ForecastLag(history, k, horizon).Some?
  {
  }

  /** The lag columns `lag_1 ... lag_n` of a forecast that does not fail. */
  function ForecastLags(history: seq<real>, n: nat, horizon: nat): (cols: seq<seq<real>>)
    requires horizon >= 1 && !LagsFail(history, n, horizon)
    ensures |cols| == n && forall k :: 0 <= k < n ==> |cols[k]| == horizon
  {
    seq(n, k requires 0 <= k < n => ForecastLag(history, k + 1, horizon).value)
  }

  /** One more lag column. */
  lemma ForecastLagsSnoc(history: seq<real>, n: nat, horizon: nat)
    requires horizon >= 1 && n >= 1 && !LagsFail(history, n, horizon)
    ensures ForecastLags(history, n, horizon) == ForecastLags(history, n - 1, horizon) + [ForecastLag(history, n, horizon).value]
  {
  }

  /** The forecast's design matrix before the scaler's check: calendar columns
      and lags of the forecast hours, the indicators, and a zero column for
      each fitted feature still missing. */
  function FutureFeatures(index: seq<Timestamp>, history: seq<real>, lags: nat, horizon: nat, fitted: seq<string>)
    : (r: Result<Table>)
    requires horizon >= 1 && |index| == horizon
    ensures r.Err? <==> LagsFail(history, lags, horizon)
    ensures r.Err? ==> r.error == LengthMismatch
    ensures r.Ok? ==> r.value.WellFormed() && r.value.height == horizon
  {
    if LagsFail(history, lags, horizon) then Err(LengthMismatch)
    else
      var cols := ForecastLags(history, lags, horizon);
      Ok(FillFrom(DeclaredDummies(WithLags(CalendarTable(index), cols), index), fitted, 0))
  }

  /** The last step of a forecast: an error building the frame is passed on,
      a frame whose columns are not the scaler's is refused, and otherwise
      each row is scaled, predicted and clipped to [0, 1]. */
  function PredictFrame(model: Regressor<Row>, scaler: Scaler<Row>, index: seq<Timestamp>, frame: Result<Table>)
    : (r: Result<Series<real>>)
    requires frame.Ok? ==> frame.value.WellFormed() && frame.value.height == |index|
    ensures frame.Err? ==> r == Err(frame.error)
    ensures frame.Ok? ==> (r.Err? <==> frame.value.names != scaler.featureNames)
    ensures frame.Ok? && r.Err? ==> r.error == FeatureMismatch
    ensures r.Ok? ==> r.value.index == index && |r.value.values| == |index|
    ensures r.Ok? ==> forall j :: 0 <= j < |index| ==>
      r.value.values[j] == Clip(model.predict(scaler.transform(frame.value.Rows()[j])))
  {
    match frame
    case Err(e) => Err(e)
    case Ok(x) =>
      if x.names != scaler.featureNames then Err(FeatureMismatch)
      else Ok(Indexed(index, ClipAll(PredictRows(model, TransformRows(scaler, x.Rows())))))
  }

  /** The forecast of one station: features for the hours after the last
      observation, scaled by the station's scaler, fed to its regression, and
      clipped to [0, 1]. */
  function Forecast(model: Regressor<Row>, scaler: Scaler<Row>, lags: nat, horizon: nat, data: Series<real>)
    : (r: Result<Series<real>>)
    ensures |data.index| == 0 ==> r == Err(EmptySeries)
    ensures |data.index| > 0 && horizon == 0 ==> r == Err(NoSamples)
    ensures |data.index| > 0 && horizon >= 1 ==>
      (r == Err(LengthMismatch) <==> lags >= 1 && 2 <= |data.values| < horizon)
    ensures r == Err(FeatureMismatch) <==> (|data.index| > 0 && horizon >= 1 &&
      var x := FutureFeatures(DateRange(LastStamp(data) + 1, horizon), Last(data.values, lags + horizon),
                              lags, horizon, scaler.featureNames);
      x.Ok? && x.value.names != scaler.featureNames)
    ensures r.Ok? ==> |data.index| > 0 && r.value.index == DateRange(LastStamp(data) + 1, horizon)
    ensures r.Ok? ==> forall j :: 0 <= j < |r.value.values| ==> 0.0 <= r.value.values[j] <= 1.0
    ensures r.Ok? ==> (|data.index| > 0 && horizon >= 1 &&
      var x := FutureFeatures(DateRange(LastStamp(data) + 1, horizon), Last(data.values, lags + horizon),
                              lags, horizon, scaler.featureNames);
      && x.Ok? && x.value.names == scaler.featureNames && |r.value.values| == horizon
      && forall j :: 0 <= j < horizon ==> r.value.values[j] == Clip(model.predict(scaler.transform(x.value.Rows()[j]))))
  {
    if |data.index| == 0 then Err(EmptySeries)
    else if horizon == 0 then Err(NoSamples)
    else
      var index := DateRange(LastStamp(data) + 1, horizon);
      var history := Last(data.values, lags + horizon);
      assert |history| == Min(lags + horizon, |data.values|);
      PredictFrame(model, scaler, index, FutureFeatures(index, history, lags, horizon, scaler.featureNames))
  }

  /** The lag features line up in training and in prediction: the value of
      `lag_k` at forecast hour `j` is the observation `horizon + k` hours before
      that hour, as in training (`TrainLag`). */
  lemma ForecastLagIsEarlierObservation(data: Series<real>, lags: nat, horizon: nat, k: nat, j: nat)
    requires Hourly(data.index) && |data.index| >= lags + horizon
    requires horizon >= 1 && 1 <= k <= lags && j < horizon
    ensures var n := |data.values|;
      var history := Last(data.values, lags + horizon);
      && ForecastLag(history, k, horizon).Some?
      && ForecastLag(history, k, horizon).value[j] == data.values[n - horizon - k + j]
      && data.index[n - horizon - k + j] + horizon + k == DateRange(LastStamp(data) + 1, horizon)[j]
  {
    var n := |data.values|;
    var history := Last(data.values, lags + horizon);
    assert |history| == lags + horizon;
    assert history[lags + j - k] == data.values[n - (lags + horizon) + lags + j - k];
  }

  /** A scaler fitted on full training weeks accepts every forecast frame: the
      forecast's columns are exactly the fitted ones, in the same order. */
  lemma FutureFeaturesMatchTraining(index: seq<Timestamp>, history: seq<real>, lags: nat, horizon: nat)
    requires horizon >= 1 && |index| == horizon
    requires !LagsFail(history, lags, horizon)
    ensures FutureFeatures(index, history, lags, horizon, FeatureNames(lags)).Ok?
    ensures FutureFeatures(index, history, lags, horizon, FeatureNames(lags)).value.names == FeatureNames(lags)
  {
    var cols := ForecastLags(history, lags, horizon);
    var base := CalendarTable(index);
    CalendarNamesLagFree();
    WithLagsAppends(base, cols);
    var t := DeclaredDummies(WithLags(base, cols), index);
    DeclaredDummiesLayout(WithLags(base, cols), index);
    assert t.names == FeatureNames(lags);
    FillFromComplete(t, FeatureNames(lags), 0);
  }

  /** Filling changes nothing when every listed name is already a column. */
  lemma {:induction false} FillFromComplete(t: Table, names: seq<string>, i: nat)
    requires t.WellFormed() && i <= |names|
    requires forall k :: i <= k < |names| ==> names[k] in t.names
    ensures FillFrom(t, names, i) == t
    decreases |names| - i
  {
    if i < |names| {
      FillFromComplete(t, names, i + 1);
    }
  }

  /** With a scaler fitted on the training layout, the forecast fails only on an
      empty series, a zero horizon, or a history shorter than the horizon. */
  lemma ForecastSucceeds(model: Regressor<Row>, scaler: Scaler<Row>, lags: nat, horizon: nat, data: Series<real>)
    requires scaler.featureNames == FeatureNames(lags)
    requires |data.index| > 0 && horizon >= 1
    requires !(lags >= 1 && 2 <= |data.values| < horizon)
    ensures Forecast(model, scaler, lags, horizon, data).Ok?
  {
    var index := DateRange(LastStamp(data) + 1, horizon);
    var history := Last(data.values, lags + horizon);
    assert |history| == Min(lags + horizon, |data.values|);
    FutureFeaturesMatchTraining(index, history, lags, horizon);
  }

  /** The code's encoding turns a Sunday into a Monday: in a forecast window
      inside one Sunday, the `is_sunday_True` column that the fitted scaler
      expects is absent from the dummies, and the filling loop gives it zeros. */
  lemma SundayWindowLosesItsDay(t: Table, dates: seq<Timestamp>, fitted: seq<string>)
    requires t.WellFormed() && |dates| == t.height && |dates| > 0
    requires forall i :: 0 <= i < |dates| ==> DayOfWeek(dates[i]) == 6
    requires SundayName() in fitted && SundayName() !in t.names
    ensures ColumnOf(FillFrom(ObservedDummies(t, dates), fitted, 0), SundayName()) == Some(Zeros(|dates|))
  {
    var name := SundayName();
    ObservedDummiesOfOneDay(t, dates);
    FillFromProperties(t, fitted, 0);
    var r := FillFrom(t, fitted, 0);
    var k :| 0 <= k < |fitted| && fitted[k] == name;
    assert name in r.names;
    var c := IndexOf(r.names, name).value;
    BeyondPrefix(r.names, t.names, name, c);
  }

  /** A position holding a name the prefix lacks lies after the prefix. */
  lemma BeyondPrefix(s: seq<string>, p: seq<string>, x: string, c: nat)
    requires |p| <= |s| && s[..|p|] == p && x !in p && c < |s| && s[c] == x
    ensures c >= |p|
  {
    assert forall i :: 0 <= i < |p| ==> s[i] == s[..|p|][i];
  }

  /** `is_sunday_True` */
  function SundayName(): string {
    DummyName("is_sunday", BoolLabel(1))
  }

  /** Over the declared categories, the `is_sunday_True` column is 1 exactly at
      the Sunday hours, whatever else the window holds. */
  lemma DeclaredDummiesMarkSundays(t: Table, dates: seq<Timestamp>)
    requires t.WellFormed() && |dates| == t.height
    ensures ColumnOf(DeclaredDummies(t, dates), SundayName()).Some?
    ensures forall i :: 0 <= i < |dates| ==>
      ColumnOf(DeclaredDummies(t, dates), SundayName()).value[i] == if IsSunday(dates[i]) then 1.0 else 0.0
  {
    var d := DeclaredDummies(t, dates);
    DeclaredDummiesLayout(t, dates);
    assert DropFirst(Range(0, 2)) == [1];
    assert d.names[|d.names| - 1] == SundayName();
    assert IndexOf(d.names, SundayName()) == Some(|d.names| - 1);
  }

  /** The forecast's design matrix as `predict` builds it: the indicators over
      the categories found in the forecast hours alone, then a zero column for
      each fitted feature still missing, appended after them. */
  function FutureFeaturesAsWritten(index: seq<Timestamp>, history: seq<real>, lags: nat, horizon: nat, fitted: seq<string>)
    : (r: Result<Table>)
    requires horizon >= 1 && |index| == horizon
    ensures r.Err? <==> LagsFail(history, lags, horizon)
    ensures r.Err? ==> r.error == LengthMismatch
    ensures r.Ok? ==> r.value.WellFormed() && r.value.height == horizon
  {
    if LagsFail(history, lags, horizon) then Err(LengthMismatch)
    else
      var cols := ForecastLags(history, lags, horizon);
      Ok(FillFrom(ObservedDummies(WithLags(CalendarTable(index), cols), index), fitted, 0))
  }

  /** `predict` of one station as the code writes it, with the observed
      encoding of the forecast hours. */
  function ForecastAsWritten(model: Regressor<Row>, scaler: Scaler<Row>, lags: nat, horizon: nat, data: Series<real>)
    : (r: Result<Series<real>>)
    ensures |data.index| == 0 ==> r == Err(EmptySeries)
    ensures |data.index| > 0 && horizon == 0 ==> r == Err(NoSamples)
    ensures |data.index| > 0 && horizon >= 1 ==>
      (r == Err(LengthMismatch) <==> lags >= 1 && 2 <= |data.values| < horizon)
    ensures r == Err(FeatureMismatch) <==> (|data.index| > 0 && horizon >= 1 &&
      var x := FutureFeaturesAsWritten(DateRange(LastStamp(data) + 1, horizon), Last(data.values, lags + horizon),
                                       lags, horizon, scaler.featureNames);
      x.Ok? && x.value.names != scaler.featureNames)
    ensures r.Ok? ==> |data.index| > 0 && r.value.index == DateRange(LastStamp(data) + 1, horizon)
    ensures r.Ok? ==> forall j :: 0 <= j < |r.value.values| ==> 0.0 <= r.value.values[j] <= 1.0
    ensures r.Ok? ==> (|data.index| > 0 && horizon >= 1 &&
      var x := FutureFeaturesAsWritten(DateRange(LastStamp(data) + 1, horizon), Last(data.values, lags + horizon),
                                       lags, horizon, scaler.featureNames);
      && x.Ok? && x.value.names == scaler.featureNames && |r.value.values| == horizon
      && forall j :: 0 <= j < horizon ==> r.value.values[j] == Clip(model.predict(scaler.transform(x.value.Rows()[j]))))
  {
    if |data.index| == 0 then Err(EmptySeries)
    else if horizon == 0 then Err(NoSamples)
    else
      var index := DateRange(LastStamp(data) + 1, horizon);
      var history := Last(data.values, lags + horizon);
      assert |history| == Min(lags + horizon, |data.values|);
      PredictFrame(model, scaler, index, FutureFeaturesAsWritten(index, history, lags, horizon, scaler.featureNames))
  }

  /** Every weekday occurs among the hours `dates`. */
  predicate CoversWeek(dates: seq<Timestamp>) {
    forall d :: 0 <= d < 7 ==> d in DayCodes(dates)
  }

  /** The code's encoding goes wrong only on short windows: when the forecast
      hours cover every weekday, the categories found in them are the declared
      ones, and `predict` as written gives the corrected forecast. */
  lemma AsWrittenAgreesOnFullWeeks(model: Regressor<Row>, scaler: Scaler<Row>, lags: nat, horizon: nat, data: Series<real>)
    requires |data.index| > 0
    requires CoversWeek(DateRange(LastStamp(data) + 1, horizon))
    ensures ForecastAsWritten(model, scaler, lags, horizon, data) == Forecast(model, scaler, lags, horizon, data)
  {
    var index := DateRange(LastStamp(data) + 1, horizon);
    var history := Last(data.values, lags + horizon);
    assert horizon >= 1 by { assert 0 in DayCodes(index); }
    FutureFeaturesAgree(index, history, lags, horizon, scaler.featureNames);
    ForecastFromFrame(model, scaler, lags, horizon, data);
    ForecastAsWrittenFromFrame(model, scaler, lags, horizon, data);
  }

  /** The corrected forecast is the shared last step applied to its frame. */
  lemma ForecastFromFrame(model: Regressor<Row>, scaler: Scaler<Row>, lags: nat, horizon: nat, data: Series<real>)
    requires |data.index| > 0 && horizon >= 1
    ensures var index := DateRange(LastStamp(data) + 1, horizon);
      Forecast(model, scaler, lags, horizon, data)
      == PredictFrame(model, scaler, index, FutureFeatures(index, Last(data.values, lags + horizon), lags, horizon, scaler.featureNames))
  {
  }

  /** So is the forecast as written, on the frame the code builds. */
  lemma ForecastAsWrittenFromFrame(model: Regressor<Row>, scaler: Scaler<Row>, lags: nat, horizon: nat, data: Series<real>)
    requires |data.index| > 0 && horizon >= 1
    ensures var index := DateRange(LastStamp(data) + 1, horizon);
      ForecastAsWritten(model, scaler, lags, horizon, data)
      == PredictFrame(model, scaler, index, FutureFeaturesAsWritten(index, Last(data.values, lags + horizon), lags, horizon, scaler.featureNames))
  {
  }




  /** On forecast hours covering every weekday both encodings build the same frame. */
  lemma FutureFeaturesAgree(index: seq<Timestamp>, history: seq<real>, lags: nat, horizon: nat, fitted: seq<string>)
    requires horizon >= 1 && |index| == horizon && CoversWeek(index)
    ensures FutureFeaturesAsWritten(index, history, lags, horizon, fitted)
         == FutureFeatures(index, history, lags, horizon, fitted)
  {
    if !LagsFail(history, lags, horizon) {
      ObservedIsDeclaredOnFullWeeks(WithLags(CalendarTable(index), ForecastLags(history, lags, horizon)), index);
    }
  }


  /** As written, a two-hour forecast after an observation at Tuesday 22:00 is
      refused: its hours fall on a Tuesday and a Wednesday, so the only weekday
      indicator is `day_of_week_2`, the filling loop appends `day_of_week_1`
      after it, and the columns are not in the fitted order. The forecast with
      the declared encoding accepts the same input. */
  lemma TwoWeekdayWindowRefused(model: Regressor<Row>, scaler: Scaler<Row>)
    requires scaler.featureNames == FeatureNames(3)
    ensures ForecastAsWritten(model, scaler, 3, 2, Indexed([46], [0.5])) == Err(FeatureMismatch)
    ensures Forecast(model, scaler, 3, 2, Indexed([46], [0.5])).Ok?
  {
    var data: Series<real> := Indexed([46], [0.5]);
    ForecastSucceeds(model, scaler, 3, 2, data);
    var index := DateRange(47, 2);
    var history := Last(data.values, 5);
    assert |history| == 1;
    TwoWeekdayFeatures(index, history);
  }

  /** The frame of that window after the filling loop: `day_of_week_2` stands
      where the fitted layout has `day_of_week_1`. */
  lemma TwoWeekdayFeatures(index: seq<Timestamp>, history: seq<real>)
    requires index == DateRange(47, 2) && |history| == 1
    ensures FutureFeaturesAsWritten(index, history, 3, 2, FeatureNames(3)).Ok?
    ensures FutureFeaturesAsWritten(index, history, 3, 2, FeatureNames(3)).value.names != FeatureNames(3)
  {
    assert !LagsFail(history, 3, 2);
    var t := WithLags(CalendarTable(index), ForecastLags(history, 3, 2));
    CalendarNamesLagFree();
    WithLagsAppends(CalendarTable(index), ForecastLags(history, 3, 2));
    assert |t.names| == 6;
    TwoWeekdayDummies(t, index);
    var o := ObservedDummies(t, index);
    assert |o.names| == 7 && o.names[6] == DummyName("day_of_week", IntLabel(2));
    FilledOutOfOrder(o);
    assert FutureFeaturesAsWritten(index, history, 3, 2, FeatureNames(3)) == Ok(FillFrom(o, FeatureNames(3), 0));
  }

  /** A frame whose seventh column is `day_of_week_2` keeps it there through
      the filling loop, where the fitted layout has `day_of_week_1`. */
  lemma FilledOutOfOrder(o: Table)
    requires o.WellFormed() && |o.names| == 7 && o.names[6] == DummyName("day_of_week", IntLabel(2))
    ensures FillFrom(o, FeatureNames(3), 0).names != FeatureNames(3)
  {
    FillFromProperties(o, FeatureNames(3), 0);
    var x := FillFrom(o, FeatureNames(3), 0);
    DayNamesDiffer();
    assert x.names[6] == x.names[..7][6] == o.names[6];
    assert FeatureNames(3)[6] == DummyName("day_of_week", IntLabel(1));
  }

  lemma DayNamesDiffer()
    ensures DummyName("day_of_week", IntLabel(2)) != DummyName("day_of_week", IntLabel(1))
  {
    assert IntLabel(1) == [Digit(1)] && IntLabel(2) == [Digit(2)];
    assert DummyName("day_of_week", IntLabel(2))[12] == Digit(2);
    assert DummyName("day_of_week", IntLabel(1))[12] == Digit(1);
  }

  /** Tuesday 23:00 and Wednesday 00:00 give the single indicator `day_of_week_2`. */
  lemma TwoWeekdayDummies(t: Table, index: seq<Timestamp>)
    requires index == DateRange(47, 2) && t.WellFormed() && t.height == 2
    ensures ObservedDummies(t, index).names == t.names + [DummyName("day_of_week", IntLabel(2))]
  {
    assert index == [47, 48];
    assert DayOfWeek(47) == 1 && DayOfWeek(48) == 2;
    assert DayCodes(index) == [1, 2];
    assert WeekendCodes(index) == [0, 0] && SundayCodes(index) == [0, 0];
    TwoWeekdayCategories();
    ObservedDummiesLayout(t, index);
    assert DummyNamesOf("day_of_week", [2], IntLabel) == [DummyName("day_of_week", IntLabel(2))];
  }

  lemma TwoWeekdayCategories()
    ensures DropFirst(Categories([1, 2], 0, 7)) == [2]
    ensures DropFirst(Categories([0, 0], 0, 2)) == []
  {
    var c := [1, 2];
    assert 0 !in c && 3 !in c && 4 !in c && 5 !in c && 6 !in c;
    assert Categories(c, 6, 7) == [];
    assert Categories(c, 5, 7) == [];
    assert Categories(c, 4, 7) == [];
    assert Categories(c, 3, 7) == [];
    assert Categories(c, 2, 7) == [2];
    assert Categories(c, 1, 7) == [1, 2];
    assert Categories([0, 0], 1, 2) == [];
  }

  /** As written, the forecast of hours that all fall on one Sunday reaches the
      regression with `is_sunday_True` at 0, where the declared encoding sets
      it to 1: a Sunday is forecast as if it were a Monday. */
  lemma SundayForecastAsMonday(index: seq<Timestamp>, history: seq<real>, lags: nat, horizon: nat)
    requires horizon >= 1 && |index| == horizon && !LagsFail(history, lags, horizon)
    requires forall i :: 0 <= i < horizon ==> DayOfWeek(index[i]) == 6
    ensures FutureFeaturesAsWritten(index, history, lags, horizon, FeatureNames(lags)).Ok?
    ensures ColumnOf(FutureFeaturesAsWritten(index, history, lags, horizon, FeatureNames(lags)).value, SundayName())
      == Some(Zeros(horizon))
    ensures ColumnOf(FutureFeatures(index, history, lags, horizon, FeatureNames(lags)).value, SundayName())
      == Some(seq(horizon, i => 1.0))
  {
    var t := WithLags(CalendarTable(index), ForecastLags(history, lags, horizon));
    SundayNotYetAssigned(index, history, lags, horizon);
    SundayWindowLosesItsDay(t, index, FeatureNames(lags));
    SundayMarkedWhenDeclared(index, history, lags, horizon);
  }

  /** Before the encoding, the forecast frame has no `is_sunday_True` column. */
  lemma SundayNotYetAssigned(index: seq<Timestamp>, history: seq<real>, lags: nat, horizon: nat)
    requires horizon >= 1 && |index| == horizon && !LagsFail(history, lags, horizon)
    ensures SundayName() in FeatureNames(lags)
    ensures SundayName() !in WithLags(CalendarTable(index), ForecastLags(history, lags, horizon)).names
  {
    var cols := ForecastLags(history, lags, horizon);
    CalendarNamesLagFree();
    WithLagsAppends(CalendarTable(index), cols);
    assert FeatureNames(lags)[|FeatureNames(lags)| - 1] == SundayName();
    assert SundayName()[0] == 'i' && SundayName()[..4][0] == 'i';
    assert LagFree([SundayName()]);
    forall k | 0 <= k < lags ensures LagNames(lags)[k] != SundayName() {
      LagNamesDistinct(k + 1, k + 1, [SundayName()]);
    }
  }

  /** With the declared encoding, a Sunday window has `is_sunday_True` at 1. */
  lemma SundayMarkedWhenDeclared(index: seq<Timestamp>, history: seq<real>, lags: nat, horizon: nat)
    requires horizon >= 1 && |index| == horizon && !LagsFail(history, lags, horizon)
    requires forall i :: 0 <= i < horizon ==> DayOfWeek(index[i]) == 6
    ensures FutureFeatures(index, history, lags, horizon, FeatureNames(lags)).Ok?
    ensures ColumnOf(FutureFeatures(index, history, lags, horizon, FeatureNames(lags)).value, SundayName())
      == Some(seq(horizon, i => 1.0))
  {
    var t := WithLags(CalendarTable(index), ForecastLags(history, lags, horizon));
    FutureFeaturesMatchTraining(index, history, lags, horizon);
    SundayNotYetAssigned(index, history, lags, horizon);
    CalendarNamesLagFree();
    WithLagsAppends(CalendarTable(index), ForecastLags(history, lags, horizon));
    DeclaredDummiesLayout(t, index);
    FillFromComplete(DeclaredDummies(t, index), FeatureNames(lags), 0);
    DeclaredDummiesMarkSundays(t, index);
    var c := ColumnOf(DeclaredDummies(t, index), SundayName()).value;
    assert c == seq(horizon, i => 1.0);
  }

  /** How the code fits one station: the scaler on the training features, then
      the regression on the scaled features and the station's series. */
  datatype MlrLearners = MlrLearners(
    fitScaler: Table -> (Row -> Row),
    fitRegression: (seq<Row>, seq<real>) -> (Row -> real))

  class MultipleLinearRegression {
    const predictionLength: nat
    const lags: nat
    const trainDataset: Frame
    const testDataset: Frame
    const learners: MlrLearners
    var models: map<Station, Regressor<Row>>
    var scalers: map<Station, Scaler<Row>>
    /** `MLRModels/<station>_model.pkl` and `MLRModels/<station>_scaler.pkl` */
    var savedModels: map<Station, Regressor<Row>>
    var savedScalers: map<Station, Scaler<Row>>

    ghost predicate Valid()
      reads this
    {
      models.Keys == scalers.Keys && trainDataset.WellFormed()
    }

    constructor (city: Frame, predictionLength: nat, trainSize: real, lags: nat, learners: MlrLearners,
                 savedModels: map<Station, Regressor<Row>>, savedScalers: map<Station, Scaler<Row>>)
      requires city.WellFormed()
      ensures Valid() && models == map[] && scalers == map[]
      ensures this.predictionLength == predictionLength && this.lags == lags && this.learners == learners
      ensures trainDataset == TrainPart(city, trainSize) && testDataset == TestPart(city, trainSize)
      ensures this.savedModels == savedModels && this.savedScalers == savedScalers
    {
      this.predictionLength := predictionLength;
      this.lags := lags;
      this.learners := learners;
      trainDataset := TrainPart(city, trainSize);
      testDataset := TestPart(city, trainSize);
      this.savedModels := savedModels;
      this.savedScalers := savedScalers;
      models := map[];
      scalers := map[];
    }

    /** `add_lag_features`: assigns `lag_1 ... lag_L`, each the station's value
        `k + prediction_length` rows earlier. */
    method AddLagFeatures(t: Table, y: seq<real>) returns (r: Table)
      requires t.WellFormed() && |y| == t.height
      ensures r == WithLags(t, TrainLags(y, lags, predictionLength))
    {
      r := t;
      var lag := 1;
      while lag <= lags
        invariant 1 <= lag <= lags + 1
        invariant r == WithLags(t, TrainLags(y, lag - 1, predictionLength))
      {
        ghost var before := TrainLags(y, lag - 1, predictionLength);
        assert TrainLags(y, lag, predictionLength)[..lag - 1] == before;
        r := Assign(r, LagName(lag), TrainLag(y, lag, predictionLength));
        lag := lag + 1;
      }
      assert TrainLags(y, lags, predictionLength) == TrainLags(y, lag - 1, predictionLength);
    }

    /** The model and scaler a fresh fit gives station `j`. */
    function FitStation(j: nat): (fit: (Regressor<Row>, Scaler<Row>))
      requires trainDataset.WellFormed() && j < |trainDataset.names|
      ensures fit.1.featureNames == TrainingFeatures(trainDataset.dates, trainDataset.columns[j], lags, predictionLength).names
    {
      var x := TrainingFeatures(trainDataset.dates, trainDataset.columns[j], lags, predictionLength);
      var scaler := Scaler(x.names, learners.fitScaler(x));
      (Regressor(learners.fitRegression(TransformRows(scaler, x.Rows()), trainDataset.columns[j])), scaler)
    }

    /** A station fitted on training hours that cover every weekday gets a
        scaler fitted on the full feature layout, in the order the corrected
        forecast builds it: that forecast then succeeds on every series the
        code can serve, and `predict` agrees with it on windows covering
        every weekday. */
    lemma FreshFitForecasts(j: nat, data: Series<real>)
      requires trainDataset.WellFormed() && j < |trainDataset.names|
      requires forall d :: 0 <= d < 7 ==> d in DayCodes(trainDataset.dates)
      ensures FitStation(j).1.featureNames == FeatureNames(lags)
      ensures |data.index| > 0 && predictionLength >= 1 && !(lags >= 1 && 2 <= |data.values| < predictionLength) ==>
        Forecast(FitStation(j).0, FitStation(j).1, lags, predictionLength, data).Ok?
    {
      TrainingFeatureLayout(trainDataset.dates, trainDataset.columns[j], lags, predictionLength);
      if |data.index| > 0 && predictionLength >= 1 && !(lags >= 1 && 2 <= |data.values| < predictionLength) {
        ForecastSucceeds(FitStation(j).0, FitStation(j).1, lags, predictionLength, data);
      }
    }

    /** What `train` keeps for station `j`: the saved pair when both files
        exist, otherwise a fresh fit. */
    function StationArtefacts(j: nat, diskModels: map<Station, Regressor<Row>>, diskScalers: map<Station, Scaler<Row>>)
      : (Regressor<Row>, Scaler<Row>)
      requires trainDataset.WellFormed() && j < |trainDataset.names|
    {
      var s := trainDataset.names[j];
      if s in diskModels && s in diskScalers then (diskModels[s], diskScalers[s]) else FitStation(j)
    }

    /** The fitting branch of `train` for station `j`. */
    method FitArtefacts(j: nat) returns (model: Regressor<Row>, scaler: Scaler<Row>)
      requires trainDataset.WellFormed() && j < |trainDataset.names|
      ensures (model, scaler) == FitStation(j)
    {
      var x := CalendarTable(trainDataset.dates);
      x := AddLagFeatures(x, trainDataset.columns[j]);
      x := ObservedDummies(x, trainDataset.dates);
      scaler := Scaler(x.names, learners.fitScaler(x));
      model := Regressor(learners.fitRegression(TransformRows(scaler, x.Rows()), trainDataset.columns[j]));
    }

    /** One pass of `train`'s loop: station `j` gets the pair saved in
        `diskModels`/`diskScalers` (the files as they were before the loop)
        when both exist, otherwise a fresh fit that is then written to disk. */
    method TrainStation(j: nat, ghost diskModels: map<Station, Regressor<Row>>, ghost diskScalers: map<Station, Scaler<Row>>)
      requires Valid() && j < |trainDataset.names|
      requires Unchanged(savedModels, diskModels, trainDataset.names[j])
      requires Unchanged(savedScalers, diskScalers, trainDataset.names[j])
      modifies this
      ensures Valid()
      ensures var s, fit := trainDataset.names[j], StationArtefacts(j, diskModels, diskScalers);
        && models == old(models)[s := fit.0] && scalers == old(scalers)[s := fit.1]
        && savedModels == old(savedModels)[s := fit.0] && savedScalers == old(savedScalers)[s := fit.1]
    {
      var station := trainDataset.names[j];
      if station in savedModels && station in savedScalers {
        LoadStation(station);
      } else {
        FitAndSaveStation(j);
      }
    }

    /** `joblib.load` of both files of `station` into the dictionaries. */
    method LoadStation(station: Station)
      requires Valid() && station in savedModels && station in savedScalers
      modifies this
      ensures Valid()
      ensures savedModels == old(savedModels) && savedScalers == old(savedScalers)
      ensures models == old(models)[station := savedModels[station]]
      ensures scalers == old(scalers)[station := savedScalers[station]]
    {
      models := models[station := savedModels[station]];
      scalers := scalers[station := savedScalers[station]];
    }

    /** A fresh fit of station `j`, kept and written to disk. */
    method FitAndSaveStation(j: nat)
      requires Valid() && j < |trainDataset.names|
      modifies this
      ensures Valid()
      ensures var s, fit := trainDataset.names[j], FitStation(j);
        && models == old(models)[s := fit.0] && scalers == old(scalers)[s := fit.1]
        && savedModels == old(savedModels)[s := fit.0] && savedScalers == old(savedScalers)[s := fit.1]
    {
      var station := trainDataset.names[j];
      ghost var fit := FitStation(j);
      ghost var models0, scalers0, saved0, savedScalers0 := models, scalers, savedModels, savedScalers;
      var model, scaler := FitArtefacts(j);
      savedModels := savedModels[station := model];
      savedScalers := savedScalers[station := scaler];
      models := models[station := model];
      scalers := scalers[station := scaler];
      UpdateAgrees(models0, station, model, fit.0);
      UpdateAgrees(scalers0, station, scaler, fit.1);
      UpdateAgrees(saved0, station, model, fit.0);
      UpdateAgrees(savedScalers0, station, scaler, fit.1);
    }

    /** The models and the scalers `train` keeps for the training stations, in order. */
    ghost function KeptModels(diskModels: map<Station, Regressor<Row>>, diskScalers: map<Station, Scaler<Row>>)
      : (r: seq<Regressor<Row>>)
      requires trainDataset.WellFormed()
      ensures |r| == |trainDataset.names|
    {
      seq(|trainDataset.names|, k requires 0 <= k < |trainDataset.names| => StationArtefacts(k, diskModels, diskScalers).0)
    }

    ghost function KeptScalers(diskModels: map<Station, Regressor<Row>>, diskScalers: map<Station, Scaler<Row>>)
      : (r: seq<Scaler<Row>>)
      requires trainDataset.WellFormed()
      ensures |r| == |trainDataset.names|
    {
      seq(|trainDataset.names|, k requires 0 <= k < |trainDataset.names| => StationArtefacts(k, diskModels, diskScalers).1)
    }

    /** `train`: every training station gets a model and a scaler, loaded when
        both files exist and otherwise fitted and written to disk, in the
        order of the columns; other stations' entries and files are left alone. */
    method Train()
      requires Valid()
      modifies this
      ensures Valid()
      ensures var kept := KeptModels(old(savedModels), old(savedScalers));
        models == Overlay(old(models), trainDataset.names, kept)
        && savedModels == Overlay(old(savedModels), trainDataset.names, kept)
      ensures var kept := KeptScalers(old(savedModels), old(savedScalers));
        scalers == Overlay(old(scalers), trainDataset.names, kept)
        && savedScalers == Overlay(old(savedScalers), trainDataset.names, kept)
    {
      var names := trainDataset.names;
      ghost var models0, scalers0, saved0, savedScalers0 := models, scalers, savedModels, savedScalers;
      ghost var keptModels, keptScalers := KeptModels(saved0, savedScalers0), KeptScalers(saved0, savedScalers0);
      var j := 0;
      while j < |names|
        invariant 0 <= j <= |names|
        invariant Valid()
        invariant models == Overlay(models0, names[..j], keptModels[..j])
        invariant scalers == Overlay(scalers0, names[..j], keptScalers[..j])
        invariant savedModels == Overlay(saved0, names[..j], keptModels[..j])
        invariant savedScalers == Overlay(savedScalers0, names[..j], keptScalers[..j])
      {
        var station := names[j];
        assert station !in names[..j] by {
          forall k | 0 <= k < j ensures names[..j][k] != station { }
        }
        OverlayElsewhere(saved0, names[..j], keptModels[..j], station);
        OverlayElsewhere(savedScalers0, names[..j], keptScalers[..j], station);
        TrainStation(j, saved0, savedScalers0);
        OverlaySnoc(models0, names, keptModels, j);
        OverlaySnoc(scalers0, names, keptScalers, j);
        OverlaySnoc(saved0, names, keptModels, j);
        OverlaySnoc(savedScalers0, names, keptScalers, j);
        j := j + 1;
      }
      assert names[..j] == names && keptModels[..j] == keptModels && keptScalers[..j] == keptScalers;
    }

    /** The lag loop of `predict`: `lag_1 ... lag_L` of the forecast frame,
        failing where pandas refuses a column of the wrong length. */
    method AddForecastLags(base: Table, history: seq<real>) returns (r: Result<Table>)
      requires predictionLength >= 1 && base.WellFormed() && base.height == predictionLength
      ensures r.Err? <==> LagsFail(history, lags, predictionLength)
      ensures r.Err? ==> r.error == LengthMismatch
      ensures r.Ok? ==> r.value == WithLags(base, ForecastLags(history, lags, predictionLength))
    {
      var future := base;
      var lag := 1;
      while lag <= lags
        invariant 1 <= lag <= lags + 1
        invariant lag > 1 ==> !LagsFail(history, lags, predictionLength)
        invariant !LagsFail(history, lag - 1, predictionLength)
        invariant future == WithLags(base, ForecastLags(history, lag - 1, predictionLength))
      {
        var col := ForecastLag(history, lag, predictionLength);
        LagsFailAt(history, lags, predictionLength, lag);
        if col.None? {
          return Err(LengthMismatch);
        }
        ForecastLagsSnoc(history, lag, predictionLength);
        ghost var cols := ForecastLags(history, lag, predictionLength);
        assert cols[..lag - 1] == ForecastLags(history, lag - 1, predictionLength);
        future := Assign(future, LagName(lag), col.value);
        lag := lag + 1;
      }
      r := Ok(future);
    }

    /** The filling loop of `predict`: a zero column for each fitted feature
        the forecast frame lacks. */
    static method FillMissingFeatures(t: Table, names: seq<string>) returns (r: Table)
      requires t.WellFormed()
      ensures r == FillFrom(t, names, 0)
    {
      r := t;
      var i := 0;
      while i < |names|
        invariant 0 <= i <= |names|
        invariant r.WellFormed() && r.height == t.height
        invariant FillFrom(r, names, i) == FillFrom(t, names, 0)
      {
        if names[i] !in r.names {
          r := Assign(r, names[i], Zeros(r.height));
        }
        i := i + 1;
      }
    }

    /** `predict`: the forecast of the trained station's model, with the
        indicators over the categories found in the forecast hours, as the
        code encodes them. `AsWrittenAgreesOnFullWeeks` ties it to the
        corrected `Forecast`; `TwoWeekdayWindowRefused` and
        `SundayForecastAsMonday` show where the two differ. */
    method Predict(station: Station, data: Series<real>) returns (r: Result<Series<real>>)
      requires Valid()
      ensures station !in models ==> r == Err(ModelNotFound)
      ensures station in models ==> r == ForecastAsWritten(models[station], scalers[station], lags, predictionLength, data)
    {
      if station !in models {
        return Err(ModelNotFound);
      }
      var model, scaler := models[station], scalers[station];
      var dataIndex := ForecastIndexFromSeries(data, predictionLength);
      if dataIndex.Err? {
        return Err(dataIndex.error);
      }
      if predictionLength == 0 {
        return Err(NoSamples);
      }
      var index := dataIndex.value;
      var history := Last(data.values, lags + predictionLength);
      var lagged := AddForecastLags(CalendarTable(index), history);
      if lagged.Err? {
        return Err(lagged.error);
      }
      var future := FillMissingFeatures(ObservedDummies(lagged.value, index), scaler.featureNames);
      if future.names != scaler.featureNames {
        return Err(FeatureMismatch);
      }
      r := Ok(Indexed(index, ClipAll(PredictRows(model, TransformRows(scaler, future.Rows())))));
    }
  }
}
