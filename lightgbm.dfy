/** `PredictByLightGBM`: per station, a LightGBM booster and a standard scaler
    over the calendar columns, fitted on rolling 30-day windows of the training
    frame; only the pair of the last window is written to disk, and `predict`
    reads the files. */
module LightGbm {
  import opened Wrappers
  import opened Calendar
  import opened Sequences
  import opened Frames
  import opened StationMaps
  import opened Estimators
  import opened PredictionSetup

  /** `30 * 24`, the hours of one training window */
  const WindowSize: nat := 30 * 24
  /** `7 * 24`, the step between window starts */
  const ForecastingWindow: nat := 7 * 24

  /** A row of `X`: the calendar columns, without `is_sunday` or a cluster id. */
  datatype LgbRow = LgbRow(hour: int, dayOfWeek: int, dayOfMonth: int, month: int, isWeekend: bool)

  function LgbRowOf(t: Timestamp): (row: LgbRow)
    ensures 0 <= row.hour < 24 && 0 <= row.dayOfWeek < 7
    ensures 1 <= row.dayOfMonth <= 31 && 1 <= row.month <= 12
    ensures row.isWeekend <==> row.dayOfWeek >= 5
  {
    LgbRow(Hour(t), DayOfWeek(t), DayOfMonth(t), Month(t), DayOfWeek(t) >= 5)
  }

  const FeatureNames: seq<string> := ["hour", "day_of_week", "day_of_month", "month", "is_weekend"]

  /** `list(range(0, n - ws - fw + 1, fw))` */
  function WindowStarts(n: nat, ws: nat, fw: nat): (starts: seq<nat>)
    requires fw >= 1
    ensures forall k :: 0 <= k < |starts| ==> starts[k] == k * fw
  {
    var stop := n - ws - fw + 1;
    var count := if stop > 0 then (stop + fw - 1) / fw else 0;
    seq(count, k requires 0 <= k < count => k * fw)
  }

  /** The starts are exactly the multiples of `fw` whose window, followed by
      one more step, fits in the `n` rows: no start is missing and none
      overruns. */
  lemma WindowStartsExact(n: nat, ws: nat, fw: nat, k: nat)
    requires fw >= 1
    ensures k < |WindowStarts(n, ws, fw)| <==> k * fw + ws + fw <= n
  {
    var stop := n - ws - fw + 1;
    if stop > 0 {
      var count := (stop + fw - 1) / fw;
      assert count * fw >= stop && (count - 1) * fw < stop by {
        DivBounds(stop + fw - 1, fw);
      }
      if k < count {
        assert k * fw <= (count - 1) * fw by { MulMonotone(k, count - 1, fw); }
      } else {
        assert k * fw >= count * fw by { MulMonotone(count, k, fw); }
      }
    } else {
      assert k * fw >= 0 by { MulMonotone(0, k, fw); }
    }
  }

  /** The saved pair is fitted on the window of the last start, which is the
      latest that fits: between `fw` and `2 * fw - 1` of the most recent
      training hours are left out of it. */
  lemma LastWindowLeavesOutRecentHours(n: nat, ws: nat, fw: nat)
    requires fw >= 1 && |WindowStarts(n, ws, fw)| > 0
    ensures var last := WindowStarts(n, ws, fw)[|WindowStarts(n, ws, fw)| - 1];
      fw <= n - (last + ws) < 2 * fw
  {
    var starts := WindowStarts(n, ws, fw);
    var c := |starts| - 1;
    WindowStartsExact(n, ws, fw, c);
    WindowStartsExact(n, ws, fw, c + 1);
    assert (c + 1) * fw == c * fw + fw;
  }

  /** The fitting routines, given to the strategy. */
  datatype LgbLearners = LgbLearners(
    /** `KMeans(n_clusters).fit_predict(df.corr())` */
    kmeans: (nat, Frame) -> seq<int>,
    /** `StandardScaler().fit(X_window)` */
    fitScaler: seq<LgbRow> -> (LgbRow -> seq<real>),
    /** `lgb.train(params, lgb.Dataset(X_scaled, label=y_window))` */
    fit: (seq<seq<real>>, seq<real>) -> (seq<real> -> real))

  /** `predict` once both files of the station are found: the booster on the
      scaled calendar rows of the next `horizon` hours, clipped. An empty
      history has no last timestamp; a horizon of zero leaves the scaler no row
      to transform. */
  function LgbForecast(model: Regressor<seq<real>>, scaler: Scaler<LgbRow>, horizon: nat, data: Series<real>)
    : (r: Result<Series<real>>)
    ensures r == Err(EmptySeries) <==> |data.index| == 0
    ensures r == Err(NoSamples) <==> |data.index| > 0 && horizon == 0
    ensures r.Err? ==> r == Err(EmptySeries) || r == Err(NoSamples)
    ensures r.Ok? ==>
      && |r.value.index| == horizon
      && (forall j :: 0 <= j < horizon ==> r.value.index[j] == LastStamp(data) + 1 + j)
      && (forall j :: 0 <= j < horizon ==>
            r.value.values[j] == Clip(model.predict(scaler.transform(LgbRowOf(r.value.index[j])))))
      && forall j :: 0 <= j < horizon ==> 0.0 <= r.value.values[j] <= 1.0
  {
    match ForecastIndexFromSeries(data, horizon)
    case Err(e) => Err(e)
    case Ok(index) =>
      if |index| == 0 then Err(NoSamples)
      else
        var rows := seq(|index|, j requires 0 <= j < |index| => LgbRowOf(index[j]));
        Ok(Indexed(index, ClipAll(PredictRows(model, TransformRows(scaler, rows)))))
  }

  class PredictByLightGBM {
    const predictionLength: nat
    const nClusters: nat
    const trainDataset: Frame
    const testDataset: Frame
    const learners: LgbLearners
    /** computed by `train`, not used by the forecasts */
    var stationClusters: map<Station, int>
    /** `LightGBMModels/<station>_lightgbm_model.txt` and `<station>_scaler.pkl` */
    var savedModels: map<Station, Regressor<seq<real>>>
    var savedScalers: map<Station, Scaler<LgbRow>>

    ghost predicate Valid()
      reads this
    {
      trainDataset.WellFormed()
    }

    constructor (city: Frame, predictionLength: nat, trainSize: real, nClusters: nat, learners: LgbLearners,
                 savedModels: map<Station, Regressor<seq<real>>>, savedScalers: map<Station, Scaler<LgbRow>>)
      requires city.WellFormed()
      ensures Valid() && stationClusters == map[]
      ensures this.predictionLength == predictionLength && this.nClusters == nClusters && this.learners == learners
      ensures trainDataset == TrainPart(city, trainSize) && testDataset == TestPart(city, trainSize)
      ensures this.savedModels == savedModels && this.savedScalers == savedScalers
    {
      this.predictionLength := predictionLength;
      this.nClusters := nClusters;
      this.learners := learners;
      trainDataset := TrainPart(city, trainSize);
      testDataset := TestPart(city, trainSize);
      this.savedModels := savedModels;
      this.savedScalers := savedScalers;
      stationClusters := map[];
    }

    /** The training windows of this frame. */
    function Starts(): seq<nat>
    {
      WindowStarts(|trainDataset.dates|, WindowSize, ForecastingWindow)
    }

    /** The booster and the scaler fitted on the window of station `j` that
        starts at row `start`: rows `start .. start + 720` of the calendar
        columns and of the station's column. */
    function FitWindow(j: nat, start: nat): (fit: (Regressor<seq<real>>, Scaler<LgbRow>))
      requires trainDataset.WellFormed() && j < |trainDataset.names|
      requires start + WindowSize <= |trainDataset.dates|
      ensures fit.1.featureNames == FeatureNames
    {
      var dates := trainDataset.dates[start..start + WindowSize];
      var x := seq(WindowSize, i requires 0 <= i < WindowSize => LgbRowOf(dates[i]));
      var scaler := Scaler(FeatureNames, learners.fitScaler(x));
      (Regressor(learners.fit(TransformRows(scaler, x), trainDataset.columns[j][start..start + WindowSize])), scaler)
    }

    /** The loop over the windows of one station: a booster and a scaler per
        window, in the order of the starts. */
    method FitWindows(j: nat) returns (models: seq<Regressor<seq<real>>>, scalers: seq<Scaler<LgbRow>>)
      requires Valid() && j < |trainDataset.names|
      ensures |models| == |scalers| == |Starts()|
      ensures forall k :: 0 <= k < |models| ==>
        Starts()[k] + WindowSize <= |trainDataset.dates| && (models[k], scalers[k]) == FitWindow(j, Starts()[k])
    {
      var starts := WindowStarts(|trainDataset.dates|, WindowSize, ForecastingWindow);
      models, scalers := [], [];
      var k := 0;
      while k < |starts|
        invariant 0 <= k <= |starts| && |models| == |scalers| == k
        invariant forall i :: 0 <= i < k ==>
          starts[i] + WindowSize <= |trainDataset.dates| && (models[i], scalers[i]) == FitWindow(j, starts[i])
      {
        WindowStartsExact(|trainDataset.dates|, WindowSize, ForecastingWindow, k);
        var start := starts[k];
        var dates := trainDataset.dates[start..start + WindowSize];
        var x := seq(WindowSize, i requires 0 <= i < WindowSize => LgbRowOf(dates[i]));
        var scaler := Scaler(FeatureNames, learners.fitScaler(x));
        var model := Regressor(learners.fit(TransformRows(scaler, x), trainDataset.columns[j][start..start + WindowSize]));
        models, scalers := models + [model], scalers + [scaler];
        k := k + 1;
      }
    }

    /** The pair written for station `j`: the one of the last window. */
    function LastFit(j: nat): (Regressor<seq<real>>, Scaler<LgbRow>)
      requires trainDataset.WellFormed() && j < |trainDataset.names| && |Starts()| > 0
    {
      var starts := Starts();
      WindowStartsExact(|trainDataset.dates|, WindowSize, ForecastingWindow, |starts| - 1);
      FitWindow(j, starts[|starts| - 1])
    }

    /** What the files of station `j` hold after `train`: the files as they
        were when both existed, otherwise the last window's pair. */
    function StationFiles(j: nat, diskModels: map<Station, Regressor<seq<real>>>, diskScalers: map<Station, Scaler<LgbRow>>)
      : (Regressor<seq<real>>, Scaler<LgbRow>)
      requires trainDataset.WellFormed() && j < |trainDataset.names| && |Starts()| > 0
    {
      var s := trainDataset.names[j];
      if s in diskModels && s in diskScalers then (diskModels[s], diskScalers[s]) else LastFit(j)
    }

    ghost function KeptModels(diskModels: map<Station, Regressor<seq<real>>>, diskScalers: map<Station, Scaler<LgbRow>>)
      : (r: seq<Regressor<seq<real>>>)
      requires trainDataset.WellFormed() && |Starts()| > 0
      ensures |r| == |trainDataset.names|
    {
      seq(|trainDataset.names|, k requires 0 <= k < |trainDataset.names| => StationFiles(k, diskModels, diskScalers).0)
    }

    ghost function KeptScalers(diskModels: map<Station, Regressor<seq<real>>>, diskScalers: map<Station, Scaler<LgbRow>>)
      : (r: seq<Scaler<LgbRow>>)
      requires trainDataset.WellFormed() && |Starts()| > 0
      ensures |r| == |trainDataset.names|
    {
      seq(|trainDataset.names|, k requires 0 <= k < |trainDataset.names| => StationFiles(k, diskModels, diskScalers).1)
    }

    /** The fitting branch of `train`'s loop for station `j`: the windows are
        fitted and the last pair is written; with no window, `models[-1]`
        fails and nothing is written. */
    method FitAndSaveStation(j: nat) returns (error: Option<Error>)
      requires Valid() && j < |trainDataset.names|
      modifies this
      ensures Valid() && stationClusters == old(stationClusters)
      ensures error.Some? <==> |Starts()| == 0
      ensures error.Some? ==> error == Some(NoWindows)
      ensures error.Some? ==> savedModels == old(savedModels) && savedScalers == old(savedScalers)
      ensures error.None? ==> var s, fit := trainDataset.names[j], LastFit(j);
        savedModels == old(savedModels)[s := fit.0] && savedScalers == old(savedScalers)[s := fit.1]
    {
      var models, scalers := FitWindows(j);
      if |models| == 0 {
        return Some(NoWindows);
      }
      var station := trainDataset.names[j];
      ghost var fit := LastFit(j);
      ghost var saved0, savedScalers0 := savedModels, savedScalers;
      savedModels := savedModels[station := models[|models| - 1]];
      savedScalers := savedScalers[station := scalers[|scalers| - 1]];
      UpdateAgrees(saved0, station, models[|models| - 1], fit.0);
      UpdateAgrees(savedScalers0, station, scalers[|scalers| - 1], fit.1);
      error := None;
    }

    /** `train`: the stations are clustered; then each station whose two files
        both exist is skipped, and every other one gets the pair of its last
        window written. With fewer than 720 + 168 training hours there is no
        window, and the first station to fit stops `train`. */
    method Train() returns (error: Option<Error>)
      requires Valid()
      modifies this
      ensures Valid()
      ensures stationClusters == ClusterMap(trainDataset.names, learners.kmeans(nClusters, trainDataset))
      ensures |Starts()| > 0 ==> error == None
      ensures |Starts()| > 0 ==>
        && savedModels == Overlay(old(savedModels), trainDataset.names, KeptModels(old(savedModels), old(savedScalers)))
        && savedScalers == Overlay(old(savedScalers), trainDataset.names, KeptScalers(old(savedModels), old(savedScalers)))
      ensures |Starts()| == 0 ==>
        && savedModels == old(savedModels) && savedScalers == old(savedScalers)
        && error == if forall s :: s in trainDataset.names ==> s in old(savedModels) && s in old(savedScalers)
                    then None else Some(NoWindows)
    {
      stationClusters := ClusterMap(trainDataset.names, learners.kmeans(nClusters, trainDataset));
      error := TrainStations();
    }

    /** The loop of `train` over the stations in column order. */
    method TrainStations() returns (error: Option<Error>)
      requires Valid()
      modifies this
      ensures Valid() && stationClusters == old(stationClusters)
      ensures |Starts()| > 0 ==> error == None
      ensures |Starts()| > 0 ==>
        && savedModels == Overlay(old(savedModels), trainDataset.names, KeptModels(old(savedModels), old(savedScalers)))
        && savedScalers == Overlay(old(savedScalers), trainDataset.names, KeptScalers(old(savedModels), old(savedScalers)))
      ensures |Starts()| == 0 ==>
        && savedModels == old(savedModels) && savedScalers == old(savedScalers)
        && error == if forall s :: s in trainDataset.names ==> s in old(savedModels) && s in old(savedScalers)
                    then None else Some(NoWindows)
    {
      var names := trainDataset.names;
      ghost var saved0, savedScalers0 := savedModels, savedScalers;
      error := None;
      var j := 0;
      while j < |names|
        invariant 0 <= j <= |names|
        invariant Valid() && stationClusters == old(stationClusters)
        invariant Progress(j, saved0, savedScalers0) && error == None
      {
        error := TrainStep(j, saved0, savedScalers0);
        if error.Some? {
          assert !(forall s :: s in names ==> s in saved0 && s in savedScalers0) by {
            assert names[j] in names;
          }
          return;
        }
        j := j + 1;
      }
      ProgressComplete(saved0, savedScalers0);
    }

    /** Once the loop has passed every station. */
    lemma ProgressComplete(saved0: map<Station, Regressor<seq<real>>>, savedScalers0: map<Station, Scaler<LgbRow>>)
      requires Valid() && Progress(|trainDataset.names|, saved0, savedScalers0)
      ensures |Starts()| > 0 ==>
        && savedModels == Overlay(saved0, trainDataset.names, KeptModels(saved0, savedScalers0))
        && savedScalers == Overlay(savedScalers0, trainDataset.names, KeptScalers(saved0, savedScalers0))
      ensures |Starts()| == 0 ==>
        && savedModels == saved0 && savedScalers == savedScalers0
        && forall s :: s in trainDataset.names ==> s in saved0 && s in savedScalers0
    {
      var names := trainDataset.names;
      if |Starts()| > 0 {
        assert names[..|names|] == names;
        assert KeptModels(saved0, savedScalers0)[..|names|] == KeptModels(saved0, savedScalers0);
        assert KeptScalers(saved0, savedScalers0)[..|names|] == KeptScalers(saved0, savedScalers0);
      } else {
        forall s | s in names ensures s in saved0 && s in savedScalers0 {
          var k :| 0 <= k < |names| && names[k] == s;
        }
      }
    }

    /** The state of the files after the loop has passed the first `j`
        stations: with windows, the first `j` stations hold their kept pair;
        without, nothing has changed and the first `j` stations were cached. */
    ghost predicate Progress(j: nat, saved0: map<Station, Regressor<seq<real>>>, savedScalers0: map<Station, Scaler<LgbRow>>)
      requires Valid() && j <= |trainDataset.names|
      reads this
    {
      var names := trainDataset.names;
      && (|Starts()| > 0 ==>
          && savedModels == Overlay(saved0, names[..j], KeptModels(saved0, savedScalers0)[..j])
          && savedScalers == Overlay(savedScalers0, names[..j], KeptScalers(saved0, savedScalers0)[..j]))
      && (|Starts()| == 0 ==>
          && savedModels == saved0 && savedScalers == savedScalers0
          && forall k :: 0 <= k < j ==> names[k] in saved0 && names[k] in savedScalers0)
    }

    /** One pass of the loop: skip a cached station, fit any other one; without
        windows the fit fails and leaves the files as they were. */
    method TrainStep(j: nat, ghost saved0: map<Station, Regressor<seq<real>>>, ghost savedScalers0: map<Station, Scaler<LgbRow>>)
      returns (error: Option<Error>)
      requires Valid() && j < |trainDataset.names| && Progress(j, saved0, savedScalers0)
      modifies this
      ensures Valid() && stationClusters == old(stationClusters)
      ensures error.None? ==> Progress(j + 1, saved0, savedScalers0)
      ensures error.Some? ==> |Starts()| == 0 && error == Some(NoWindows)
      ensures error.Some? ==> savedModels == saved0 && savedScalers == savedScalers0
      ensures error.Some? ==> !(trainDataset.names[j] in saved0 && trainDataset.names[j] in savedScalers0)
    {
      var station := trainDataset.names[j];
      error := None;
      if station in savedModels && station in savedScalers {
        // `continue`: both files exist
        if |Starts()| > 0 {
          SkipStep(j, saved0, savedScalers0);
        }
      } else if |Starts()| > 0 {
        FitStep(j, saved0, savedScalers0);
      } else {
        error := FitAndSaveStation(j);
      }
    }

    /** The loop invariant across a skipped station (both files exist). */
    lemma SkipStep(j: nat, saved0: map<Station, Regressor<seq<real>>>, savedScalers0: map<Station, Scaler<LgbRow>>)
      requires Valid() && j < |trainDataset.names| && |Starts()| > 0
      requires var names := trainDataset.names;
        && names[j] in savedModels && names[j] in savedScalers
        && savedModels == Overlay(saved0, names[..j], KeptModels(saved0, savedScalers0)[..j])
        && savedScalers == Overlay(savedScalers0, names[..j], KeptScalers(saved0, savedScalers0)[..j])
      ensures var names := trainDataset.names;
        && savedModels == Overlay(saved0, names[..j + 1], KeptModels(saved0, savedScalers0)[..j + 1])
        && savedScalers == Overlay(savedScalers0, names[..j + 1], KeptScalers(saved0, savedScalers0)[..j + 1])
    {
      var names := trainDataset.names;
      var keptModels, keptScalers := KeptModels(saved0, savedScalers0), KeptScalers(saved0, savedScalers0);
      var station := names[j];
      assert station !in names[..j] by {
        forall k | 0 <= k < j ensures names[..j][k] != station { }
      }
      OverlayElsewhere(saved0, names[..j], keptModels[..j], station);
      OverlayElsewhere(savedScalers0, names[..j], keptScalers[..j], station);
      OverlaySnoc(saved0, names, keptModels, j);
      OverlaySnoc(savedScalers0, names, keptScalers, j);
      UpdateWithOwn(savedModels, station);
      UpdateWithOwn(savedScalers, station);
    }

    /** Station `j`'s fitting pass, as the loop invariant sees it. */
    method FitStep(j: nat, ghost saved0: map<Station, Regressor<seq<real>>>, ghost savedScalers0: map<Station, Scaler<LgbRow>>)
      requires Valid() && j < |trainDataset.names| && |Starts()| > 0
      requires var names := trainDataset.names;
        && !(names[j] in savedModels && names[j] in savedScalers)
        && savedModels == Overlay(saved0, names[..j], KeptModels(saved0, savedScalers0)[..j])
        && savedScalers == Overlay(savedScalers0, names[..j], KeptScalers(saved0, savedScalers0)[..j])
      modifies this
      ensures Valid() && stationClusters == old(stationClusters)
      ensures var names := trainDataset.names;
        && savedModels == Overlay(saved0, names[..j + 1], KeptModels(saved0, savedScalers0)[..j + 1])
        && savedScalers == Overlay(savedScalers0, names[..j + 1], KeptScalers(saved0, savedScalers0)[..j + 1])
    {
      var names := trainDataset.names;
      ghost var keptModels, keptScalers := KeptModels(saved0, savedScalers0), KeptScalers(saved0, savedScalers0);
      var station := names[j];
      assert station !in names[..j] by {
        forall k | 0 <= k < j ensures names[..j][k] != station { }
      }
      OverlayElsewhere(saved0, names[..j], keptModels[..j], station);
      OverlayElsewhere(savedScalers0, names[..j], keptScalers[..j], station);
      assert !(station in saved0 && station in savedScalers0);
      var error := FitAndSaveStation(j);
      OverlaySnoc(saved0, names, keptModels, j);
      OverlaySnoc(savedScalers0, names, keptScalers, j);
    }

    /** `predict`: the station's two files must both exist; the forecast is
        then the booster's, clipped. */
    method Predict(station: Station, data: Series<real>) returns (r: Result<Series<real>>)
      ensures !(station in savedModels && station in savedScalers) ==> r == Err(ModelNotFound)
      ensures station in savedModels && station in savedScalers ==>
        r == LgbForecast(savedModels[station], savedScalers[station], predictionLength, data)
    {
      if station !in savedModels || station !in savedScalers {
        return Err(ModelNotFound);
      }
      var model, scaler := savedModels[station], savedScalers[station];
      var index := ForecastIndexFromSeries(data, predictionLength);
      if index.Err? {
        return Err(index.error);
      }
      if |index.value| == 0 {
        return Err(NoSamples);
      }
      var rows := seq(|index.value|, j requires 0 <= j < |index.value| => LgbRowOf(index.value[j]));
      r := Ok(Indexed(index.value, ClipAll(PredictRows(model, TransformRows(scaler, rows)))));
    }
  }
}
