/** `PredictByXGBoost`: one gradient-boosted regressor per station, fed the
    calendar columns, the station's KMeans cluster id and the occupancy
    `prediction_length` rows earlier (`y_lag`). */
module XGBoostPredictor {
  import opened Wrappers
  import opened Calendar
  import opened Sequences
  import opened Frames
  import opened StationMaps
  import opened Estimators
  import opened PredictionSetup
  import opened StationFeatures

  /** A row of `X`: the calendar columns, `station_cluster` and `y_lag`
      (missing for the first rows of the training frame). */
  datatype XgbRow = XgbRow(calendar: CalendarRow, yLag: Option<real>)

  /** The training rows of one station: the rows of `y` that survive the drop
      of the interpolated positions, each with its calendar columns and the
      value `horizon` surviving rows earlier. */
  function TrainingRows(dates: seq<Timestamp>, y: seq<real>, dropped: set<nat>, cluster: int, horizon: nat)
    : (rows: seq<XgbRow>)
    requires |dates| == |y|
    ensures |rows| == |KeptPositions(|y|, dropped)|
    ensures forall i :: 0 <= i < |rows| ==>
      rows[i].calendar == CalendarRowOf(dates[KeptPositions(|y|, dropped)[i]], cluster)
    ensures forall i :: 0 <= i < |rows| ==>
      rows[i].yLag == if i >= horizon then Some(y[KeptPositions(|y|, dropped)[i - horizon]]) else None
  {
    var kept := KeptPositions(|y|, dropped);
    var values := Pick(y, kept);
    var lag := Shift(values, horizon);
    assert forall i :: 0 <= i < |kept| ==> lag[i] == if i >= horizon then Some(y[kept[i - horizon]]) else None by {
      forall i | 0 <= i < |kept| ensures lag[i] == if i >= horizon then Some(y[kept[i - horizon]]) else None {
        if i >= horizon { assert values[i - horizon] == y[kept[i - horizon]]; }
      }
    }
    seq(|kept|, i requires 0 <= i < |kept| => XgbRow(CalendarRowOf(dates[kept[i]], cluster), lag[i]))
  }

  /** No leakage: on an hourly axis, the `y_lag` of a training row is an
      observation at least `horizon` hours older than the row. */
  lemma TrainingLagIsOldEnough(dates: seq<Timestamp>, y: seq<real>, dropped: set<nat>, cluster: int, horizon: nat, i: nat)
    requires |dates| == |y| && Hourly(dates)
    requires i < |TrainingRows(dates, y, dropped, cluster, horizon)|
    requires TrainingRows(dates, y, dropped, cluster, horizon)[i].yLag.Some?
    ensures var kept := KeptPositions(|y|, dropped);
      && horizon <= i
      && TrainingRows(dates, y, dropped, cluster, horizon)[i].yLag == Some(y[kept[i - horizon]])
      && dates[kept[i - horizon]] + horizon <= dates[kept[i]]
  {
    KeptPositionsGap(|y|, dropped, i, horizon);
  }

  /** When nothing is interpolated every row is kept, and `y_lag` is exactly
      the observation `horizon` hours earlier. */
  lemma TrainingRowsWithoutGaps(dates: seq<Timestamp>, y: seq<real>, dropped: set<nat>, cluster: int, horizon: nat)
    requires |dates| == |y| && Hourly(dates)
    requires forall p :: p in dropped ==> p >= |y|
    ensures |TrainingRows(dates, y, dropped, cluster, horizon)| == |y|
    ensures KeptValues(y, dropped) == y
    ensures forall i :: 0 <= i < |y| ==>
      TrainingRows(dates, y, dropped, cluster, horizon)[i].calendar == CalendarRowOf(dates[i], cluster)
    ensures forall i :: 0 <= i < |y| ==>
      (TrainingRows(dates, y, dropped, cluster, horizon)[i].yLag.Some? <==> i >= horizon)
    ensures forall i :: horizon <= i < |y| ==>
      TrainingRows(dates, y, dropped, cluster, horizon)[i].yLag == Some(y[i - horizon])
      && dates[i - horizon] + horizon == dates[i]
  {
    KeptPositionsOfNone(|y|, dropped);
    var kept := KeptPositions(|y|, dropped);
    assert forall i :: 0 <= i < |y| ==> kept[i] == i;
    assert KeptValues(y, dropped) == y;
  }

  /** The `X_future` rows: the calendar columns of each forecast hour and the
      history value that fills its `y_lag`. */
  function ForecastRows(index: seq<Timestamp>, cluster: int, lag: seq<real>): (rows: seq<XgbRow>)
    requires |lag| == |index|
    ensures |rows| == |index|
    ensures forall j :: 0 <= j < |index| ==> rows[j] == XgbRow(CalendarRowOf(index[j], cluster), Some(lag[j]))
  {
    seq(|index|, j requires 0 <= j < |index| => XgbRow(CalendarRowOf(index[j], cluster), Some(lag[j])))
  }

  /** `predict` once the station's model and cluster are found: `horizon`
      clipped predictions from one hour after the history's last timestamp,
      row `j` lagged by the history's value `horizon - j` places from its end.
      An empty history has no last timestamp, and a history shorter than the
      horizon (or a zero horizon, where `values[-0:]` is the whole history)
      does not fit the `y_lag` column. */
  function XgbForecast(model: Regressor<XgbRow>, cluster: int, horizon: nat, data: Series<real>)
    : (r: Result<Series<real>>)
    ensures r == Err(EmptySeries) <==> |data.index| == 0
    ensures r == Err(LengthMismatch) <==> |data.index| > 0 && (horizon == 0 || |data.values| < horizon)
    ensures r.Err? ==> r == Err(EmptySeries) || r == Err(LengthMismatch)
    ensures r.Ok? ==> |r.value.index| == horizon <= |data.values|
    ensures r.Ok? ==> forall j :: 0 <= j < horizon ==> r.value.index[j] == LastStamp(data) + 1 + j
    ensures r.Ok? ==> forall j :: 0 <= j < horizon ==>
      r.value.values[j] ==
      Clip(model.predict(XgbRow(CalendarRowOf(r.value.index[j], cluster), Some(data.values[|data.values| - horizon + j]))))
    ensures r.Ok? ==> forall j :: 0 <= j < horizon ==> 0.0 <= r.value.values[j] <= 1.0
  {
    match ForecastIndexFromSeries(data, horizon)
    case Err(e) => Err(e)
    case Ok(index) =>
      var lag := Last(data.values, horizon);
      if |lag| != |index| then Err(LengthMismatch)
      else
        LastShape(data.values, horizon);
        Ok(Indexed(index, ClipAll(PredictRows(model, ForecastRows(index, cluster, lag)))))
  }

  /** On an hourly history, each forecast hour is lagged by the observation
      exactly `horizon` hours before it, as the training rows are. */
  lemma ForecastLagIsHorizonEarlier(model: Regressor<XgbRow>, cluster: int, horizon: nat, data: Series<real>, j: nat)
    requires Hourly(data.index) && XgbForecast(model, cluster, horizon, data).Ok?
    requires j < horizon
    ensures var r, n := XgbForecast(model, cluster, horizon, data).value, |data.index|;
      data.index[n - horizon + j] + horizon == r.index[j]
  {
  }

  /** The fitting and clustering routines, given to the strategy. */
  datatype XgbLearners = XgbLearners(
    /** `KMeans(n_clusters).fit_predict(df.corr())`: one label per station */
    kmeans: (nat, Frame) -> seq<int>,
    /** `get_interpolated_indices(y)` */
    interpolated: seq<real> -> set<nat>,
    /** `XGBRegressor(...).fit(X, y)` */
    fit: (seq<XgbRow>, seq<real>) -> (XgbRow -> real))

  class PredictByXGBoost {
    const predictionLength: nat
    const nClusters: nat
    const trainDataset: Frame
    const testDataset: Frame
    const learners: XgbLearners
    var models: map<Station, Regressor<XgbRow>>
    var stationClusters: map<Station, int>
    /** `XGBoostModels/<station>_xgboost_model.pkl` */
    var savedModels: map<Station, Regressor<XgbRow>>

    /** Every trained station has a cluster id, and KMeans labels each
        training station. */
    ghost predicate Valid()
      reads this
    {
      && trainDataset.WellFormed()
      && |learners.kmeans(nClusters, trainDataset)| == |trainDataset.names|
      && models.Keys <= stationClusters.Keys
      && forall s :: s in models ==> s in trainDataset.names
    }

    constructor (city: Frame, predictionLength: nat, trainSize: real, nClusters: nat, learners: XgbLearners,
                 savedModels: map<Station, Regressor<XgbRow>>)
      requires city.WellFormed()
      requires |learners.kmeans(nClusters, TrainPart(city, trainSize))| == |city.names|
      ensures Valid() && models == map[] && stationClusters == map[]
      ensures this.predictionLength == predictionLength && this.nClusters == nClusters && this.learners == learners
      ensures trainDataset == TrainPart(city, trainSize) && testDataset == TestPart(city, trainSize)
      ensures this.savedModels == savedModels
    {
      this.predictionLength := predictionLength;
      this.nClusters := nClusters;
      this.learners := learners;
      trainDataset := TrainPart(city, trainSize);
      testDataset := TestPart(city, trainSize);
      this.savedModels := savedModels;
      models := map[];
      stationClusters := map[];
    }

    /** The model a fresh fit gives station `j` with cluster id `cluster`. */
    function FitStation(j: nat, cluster: int): Regressor<XgbRow>
      requires trainDataset.WellFormed() && j < |trainDataset.names|
    {
      var y := trainDataset.columns[j];
      var dropped := learners.interpolated(y);
      Regressor(learners.fit(TrainingRows(trainDataset.dates, y, dropped, cluster, predictionLength),
                             KeptValues(y, dropped)))
    }

    /** What `train` keeps for station `j`: the saved model when its file
        exists, otherwise a fresh fit. */
    function StationModel(j: nat, disk: map<Station, Regressor<XgbRow>>, clusters: map<Station, int>): Regressor<XgbRow>
      requires trainDataset.WellFormed() && j < |trainDataset.names| && trainDataset.names[j] in clusters
    {
      var s := trainDataset.names[j];
      if s in disk then disk[s] else FitStation(j, clusters[s])
    }

    ghost function KeptModels(disk: map<Station, Regressor<XgbRow>>, clusters: map<Station, int>)
      : (r: seq<Regressor<XgbRow>>)
      requires trainDataset.WellFormed() && forall s :: s in trainDataset.names ==> s in clusters
      ensures |r| == |trainDataset.names|
    {
      seq(|trainDataset.names|, k requires 0 <= k < |trainDataset.names| => StationModel(k, disk, clusters))
    }

    /** One pass of `train`'s loop: the model file as it was before the loop
        (`disk`) is loaded when it exists, otherwise a fresh fit is written. */
    method TrainStation(j: nat, ghost disk: map<Station, Regressor<XgbRow>>)
      requires Valid() && j < |trainDataset.names| && trainDataset.names[j] in stationClusters
      requires Unchanged(savedModels, disk, trainDataset.names[j])
      modifies this
      ensures Valid() && stationClusters == old(stationClusters)
      ensures var s, m := trainDataset.names[j], StationModel(j, disk, stationClusters);
        models == old(models)[s := m] && savedModels == old(savedModels)[s := m]
    {
      var station := trainDataset.names[j];
      ghost var models0, saved0 := models, savedModels;
      ghost var m := StationModel(j, disk, stationClusters);
      if station in savedModels {
        models := models[station := savedModels[station]];
        UpdateWithOwn(saved0, station);
        UpdateAgrees(models0, station, saved0[station], m);
      } else {
        var model := FitStation(j, stationClusters[station]);
        savedModels := savedModels[station := model];
        models := models[station := model];
        UpdateAgrees(models0, station, model, m);
        UpdateAgrees(saved0, station, model, m);
      }
    }

    /** `train`: the stations are clustered on their correlation matrix, then
        every training station gets a model, loaded when its file exists and
        otherwise fitted on its non-interpolated rows and written to disk. */
    method Train()
      requires Valid()
      modifies this
      ensures Valid()
      ensures stationClusters == ClusterMap(trainDataset.names, learners.kmeans(nClusters, trainDataset))
      ensures forall j :: 0 <= j < |trainDataset.names| ==>
        stationClusters[trainDataset.names[j]] == learners.kmeans(nClusters, trainDataset)[j]
      ensures var kept := KeptModels(old(savedModels), stationClusters);
        models == Overlay(old(models), trainDataset.names, kept)
        && savedModels == Overlay(old(savedModels), trainDataset.names, kept)
    {
      ClusterStations();
      TrainStations();
    }

    /** The clustering step of `train`. */
    method ClusterStations()
      requires Valid()
      modifies this
      ensures Valid()
      ensures stationClusters == ClusterMap(trainDataset.names, learners.kmeans(nClusters, trainDataset))
      ensures forall j :: 0 <= j < |trainDataset.names| ==>
        stationClusters[trainDataset.names[j]] == learners.kmeans(nClusters, trainDataset)[j]
      ensures forall s :: s in trainDataset.names ==> s in stationClusters
      ensures models == old(models) && savedModels == old(savedModels)
    {
      var clusters := learners.kmeans(nClusters, trainDataset);
      stationClusters := ClusterMap(trainDataset.names, clusters);
      ClusterMapCoversStations(trainDataset.names, clusters);
    }

    /** The loop of `train` over the stations in column order. */
    method TrainStations()
      requires Valid() && forall s :: s in trainDataset.names ==> s in stationClusters
      modifies this
      ensures Valid() && stationClusters == old(stationClusters)
      ensures var kept := KeptModels(old(savedModels), stationClusters);
        models == Overlay(old(models), trainDataset.names, kept)
        && savedModels == Overlay(old(savedModels), trainDataset.names, kept)
    {
      var names := trainDataset.names;
      ghost var clusters := stationClusters;
      ghost var models0, saved0 := models, savedModels;
      ghost var kept := KeptModels(saved0, clusters);
      var j := 0;
      while j < |names|
        invariant 0 <= j <= |names|
        invariant Valid() && stationClusters == clusters
        invariant models == Overlay(models0, names[..j], kept[..j])
        invariant savedModels == Overlay(saved0, names[..j], kept[..j])
      {
        var station := names[j];
        assert station !in names[..j] by {
          forall k | 0 <= k < j ensures names[..j][k] != station { }
        }
        OverlayElsewhere(saved0, names[..j], kept[..j], station);
        TrainStation(j, saved0);
        OverlaySnoc(models0, names, kept, j);
        OverlaySnoc(saved0, names, kept, j);
        j := j + 1;
      }
      assert names[..j] == names && kept[..j] == kept;
    }

    /** `predict`: an unknown station is an error; otherwise the station's
        model forecasts the next `prediction_length` hours. */
    method Predict(station: Station, data: Series<real>) returns (r: Result<Series<real>>)
      requires Valid()
      ensures station !in models ==> r == Err(ModelNotFound)
      ensures station in models ==> r == XgbForecast(models[station], stationClusters[station], predictionLength, data)
    {
      if station !in models {
        return Err(ModelNotFound);
      }
      var model := models[station];
      var index := ForecastIndexFromSeries(data, predictionLength);
      if index.Err? {
        return Err(index.error);
      }
      var lag := Last(data.values, predictionLength);
      if |lag| != |index.value| {
        return Err(LengthMismatch);
      }
      var future := ForecastRows(index.value, stationClusters[station], lag);
      r := Ok(Indexed(index.value, ClipAll(PredictRows(model, future))));
    }
  }
}
