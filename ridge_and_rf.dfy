/** `PredictByRidgeAndRandomForest`: per station, a standard scaler over the
    calendar columns and the cluster id, and a ridge regression and a random
    forest fitted on the scaled rows; the forecast is the mean of the two. */
module RidgeAndRandomForest {
  import opened Wrappers
  import opened Calendar
  import opened Sequences
  import opened Frames
  import opened StationMaps
  import opened Estimators
  import opened PredictionSetup
  import opened StationFeatures

  /** The column names of `X`, as the scaler records them. */
  const FeatureNames: seq<string> :=
    ["hour", "day_of_week", "day_of_month", "month", "is_weekend", "is_sunday", "station_cluster"]

  /** The pair `(ridge_model, rf_model)` of one station. */
  datatype RidgeForest = RidgeForest(ridge: Regressor<seq<real>>, forest: Regressor<seq<real>>)

  /** The training rows of one station: the calendar columns and the cluster id
      of every row that survives the drop of the interpolated positions. */
  function TrainingRows(dates: seq<Timestamp>, dropped: set<nat>, cluster: int): (rows: seq<CalendarRow>)
    ensures |rows| == |KeptPositions(|dates|, dropped)|
    ensures forall i :: 0 <= i < |rows| ==>
      rows[i] == CalendarRowOf(dates[KeptPositions(|dates|, dropped)[i]], cluster)
  {
    var kept := KeptPositions(|dates|, dropped);
    seq(|kept|, i requires 0 <= i < |kept| => CalendarRowOf(dates[kept[i]], cluster))
  }

  /** The rows of `future`, built by the same rule as the training rows. */
  function ForecastRows(index: seq<Timestamp>, cluster: int): (rows: seq<CalendarRow>)
    ensures |rows| == |index|
    ensures forall j :: 0 <= j < |index| ==> rows[j] == CalendarRowOf(index[j], cluster)
  {
    seq(|index|, j requires 0 <= j < |index| => CalendarRowOf(index[j], cluster))
  }

  /** A forecast hour that also occurs among the kept training rows gets the
      very row the models were fitted on. */
  lemma ForecastRowIsTrainingRow(dates: seq<Timestamp>, dropped: set<nat>, cluster: int, index: seq<Timestamp>, i: nat, j: nat)
    requires i < |KeptPositions(|dates|, dropped)| && j < |index|
    requires dates[KeptPositions(|dates|, dropped)[i]] == index[j]
    ensures ForecastRows(index, cluster)[j] == TrainingRows(dates, dropped, cluster)[i]
  {
  }

  /** `(ridge.predict(x) + rf.predict(x)) / 2` */
  function Average(m: RidgeForest, x: seq<real>): real {
    (m.ridge.predict(x) + m.forest.predict(x)) / 2.0
  }

  /** `predict` once the station's models, scaler and cluster are found: one
      value per hour from one hour after the history's last timestamp, the mean
      of the two models on the scaled row, not clipped. An empty history has no
      last timestamp; a horizon of zero leaves the scaler no row to transform. */
  function RidgeForecast(m: RidgeForest, scaler: Scaler<CalendarRow>, cluster: int, horizon: nat, data: Series<real>)
    : (r: Result<Series<real>>)
    ensures r == Err(EmptySeries) <==> |data.index| == 0
    ensures r == Err(NoSamples) <==> |data.index| > 0 && horizon == 0
    ensures r.Err? ==> r == Err(EmptySeries) || r == Err(NoSamples)
    ensures r.Ok? ==>
      && |r.value.index| == horizon
      && (forall j :: 0 <= j < horizon ==> r.value.index[j] == LastStamp(data) + 1 + j)
      && forall j :: 0 <= j < horizon ==>
        r.value.values[j] == Average(m, scaler.transform(CalendarRowOf(r.value.index[j], cluster)))
  {
    match ForecastIndexFromSeries(data, horizon)
    case Err(e) => Err(e)
    case Ok(index) =>
      if |index| == 0 then Err(NoSamples)
      else
        var x := TransformRows(scaler, ForecastRows(index, cluster));
        Ok(Indexed(index, seq(|index|, j requires 0 <= j < |index| => Average(m, x[j]))))
  }

  /** The forecast is not clipped: it stays in [0, 1] when both models do, and
      a pair that predicts outside [0, 1] gives a forecast outside it. */
  lemma RidgeForecastRange(m: RidgeForest, scaler: Scaler<CalendarRow>, cluster: int, horizon: nat, data: Series<real>)
    requires RidgeForecast(m, scaler, cluster, horizon, data).Ok?
    ensures var r := RidgeForecast(m, scaler, cluster, horizon, data).value;
      forall j :: 0 <= j < horizon ==>
        var x := scaler.transform(CalendarRowOf(r.index[j], cluster));
        && (0.0 <= m.ridge.predict(x) <= 1.0 && 0.0 <= m.forest.predict(x) <= 1.0 ==> 0.0 <= r.values[j] <= 1.0)
        && (m.ridge.predict(x) > 1.0 && m.forest.predict(x) > 1.0 ==> r.values[j] > 1.0)
        && (m.ridge.predict(x) < 0.0 && m.forest.predict(x) < 0.0 ==> r.values[j] < 0.0)
  {
  }

  /** The fitting and clustering routines, given to the strategy. */
  datatype RidgeLearners = RidgeLearners(
    /** `KMeans(n_clusters).fit_predict(df.corr())`: one label per station */
    kmeans: (nat, Frame) -> seq<int>,
    /** `get_interpolated_indices(y)` */
    interpolated: seq<real> -> set<nat>,
    /** `StandardScaler().fit(X)` */
    fitScaler: seq<CalendarRow> -> (CalendarRow -> seq<real>),
    /** `Ridge().fit(X_scaled, y)` */
    fitRidge: (seq<seq<real>>, seq<real>) -> (seq<real> -> real),
    /** `RandomForestRegressor(...).fit(X_scaled, y)` */
    fitForest: (seq<seq<real>>, seq<real>) -> (seq<real> -> real))

  class PredictByRidgeAndRandomForest {
    const predictionLength: nat
    const nClusters: nat
    const trainDataset: Frame
    const testDataset: Frame
    const learners: RidgeLearners
    var models: map<Station, RidgeForest>
    var scalers: map<Station, Scaler<CalendarRow>>
    var stationClusters: map<Station, int>
    /** `RidgeRandomForestModels/<station>_ridge_randomforest_model.pkl` and `<station>_scaler.pkl` */
    var savedModels: map<Station, RidgeForest>
    var savedScalers: map<Station, Scaler<CalendarRow>>

    /** Every trained station has a scaler and a cluster id, and KMeans labels
        each training station. */
    ghost predicate Valid()
      reads this
    {
      && trainDataset.WellFormed()
      && |learners.kmeans(nClusters, trainDataset)| == |trainDataset.names|
      && models.Keys == scalers.Keys
      && models.Keys <= stationClusters.Keys
      && forall s :: s in models ==> s in trainDataset.names
    }

    constructor (city: Frame, predictionLength: nat, trainSize: real, nClusters: nat, learners: RidgeLearners,
                 savedModels: map<Station, RidgeForest>, savedScalers: map<Station, Scaler<CalendarRow>>)
      requires city.WellFormed()
      requires |learners.kmeans(nClusters, TrainPart(city, trainSize))| == |city.names|
      ensures Valid() && models == map[] && scalers == map[] && stationClusters == map[]
      ensures this.predictionLength == predictionLength && this.nClusters == nClusters && this.learners == learners
      ensures trainDataset == TrainPart(city, trainSize) && testDataset == TestPart(city, trainSize)
      ensures this.savedModels == savedModels && this.savedScalers == savedScalers
    {
      this.predictionLength := predictionLength;
      this.nClusters := nClusters;
      this.learners := learners;
      trainDataset := TrainPart(city, trainSize);
      testDataset := TestPart(city, trainSize);
      this.savedModels := savedModels;
      this.savedScalers := savedScalers;
      models := map[];
      scalers := map[];
      stationClusters := map[];
    }

    /** The models and the scaler a fresh fit gives station `j` with cluster id
        `cluster`: both models are fitted on the same scaled rows and targets. */
    function FitStation(j: nat, cluster: int): (fit: (RidgeForest, Scaler<CalendarRow>))
      requires trainDataset.WellFormed() && j < |trainDataset.names|
      ensures fit.1.featureNames == FeatureNames
    {
      var y := trainDataset.columns[j];
      var dropped := learners.interpolated(y);
      var x := TrainingRows(trainDataset.dates, dropped, cluster);
      var scaler := Scaler(FeatureNames, learners.fitScaler(x));
      var scaled, targets := TransformRows(scaler, x), KeptValues(y, dropped);
      (RidgeForest(Regressor(learners.fitRidge(scaled, targets)), Regressor(learners.fitForest(scaled, targets))), scaler)
    }

    /** What `train` keeps for station `j`: the saved pair when both files
        exist, otherwise a fresh fit. */
    function StationArtefacts(j: nat, diskModels: map<Station, RidgeForest>, diskScalers: map<Station, Scaler<CalendarRow>>,
                              clusters: map<Station, int>): (RidgeForest, Scaler<CalendarRow>)
      requires trainDataset.WellFormed() && j < |trainDataset.names| && trainDataset.names[j] in clusters
    {
      var s := trainDataset.names[j];
      if s in diskModels && s in diskScalers then (diskModels[s], diskScalers[s]) else FitStation(j, clusters[s])
    }

    /** One pass of `train`'s loop over the files as they were before the loop. */
    method TrainStation(j: nat, ghost diskModels: map<Station, RidgeForest>, ghost diskScalers: map<Station, Scaler<CalendarRow>>)
      requires Valid() && j < |trainDataset.names| && trainDataset.names[j] in stationClusters
      requires Unchanged(savedModels, diskModels, trainDataset.names[j])
      requires Unchanged(savedScalers, diskScalers, trainDataset.names[j])
      modifies this
      ensures Valid() && stationClusters == old(stationClusters)
      ensures var s, fit := trainDataset.names[j], StationArtefacts(j, diskModels, diskScalers, stationClusters);
        && models == old(models)[s := fit.0] && scalers == old(scalers)[s := fit.1]
        && savedModels == old(savedModels)[s := fit.0] && savedScalers == old(savedScalers)[s := fit.1]
    {
      var station := trainDataset.names[j];
      if station in savedModels && station in savedScalers {
        LoadStation(station);
      } else {
        FitAndSaveStation(j);
      }
    }

    /** `joblib.load` of both files of `station`. */
    method LoadStation(station: Station)
      requires Valid() && station in savedModels && station in savedScalers
      requires station in trainDataset.names && station in stationClusters
      modifies this
      ensures Valid() && stationClusters == old(stationClusters)
      ensures savedModels == old(savedModels) && savedScalers == old(savedScalers)
      ensures models == old(models)[station := savedModels[station]]
      ensures scalers == old(scalers)[station := savedScalers[station]]
    {
      models := models[station := savedModels[station]];
      scalers := scalers[station := savedScalers[station]];
    }

    /** A fresh fit of station `j`, kept and written to disk. */
    method FitAndSaveStation(j: nat)
      requires Valid() && j < |trainDataset.names| && trainDataset.names[j] in stationClusters
      modifies this
      ensures Valid() && stationClusters == old(stationClusters)
      ensures var s, fit := trainDataset.names[j], FitStation(j, stationClusters[trainDataset.names[j]]);
        && models == old(models)[s := fit.0] && scalers == old(scalers)[s := fit.1]
        && savedModels == old(savedModels)[s := fit.0] && savedScalers == old(savedScalers)[s := fit.1]
    {
      var station := trainDataset.names[j];
      var fit := FitStation(j, stationClusters[station]);
      ghost var models0, scalers0, saved0, savedScalers0 := models, scalers, savedModels, savedScalers;
      var model, scaler := fit.0, fit.1;
      savedModels := savedModels[station := model];
      savedScalers := savedScalers[station := scaler];
      models := models[station := model];
      scalers := scalers[station := scaler];
      UpdateAgrees(models0, station, model, fit.0);
      UpdateAgrees(scalers0, station, scaler, fit.1);
      UpdateAgrees(saved0, station, model, fit.0);
      UpdateAgrees(savedScalers0, station, scaler, fit.1);
    }

    ghost function KeptModels(diskModels: map<Station, RidgeForest>, diskScalers: map<Station, Scaler<CalendarRow>>,
                              clusters: map<Station, int>): (r: seq<RidgeForest>)
      requires trainDataset.WellFormed() && forall s :: s in trainDataset.names ==> s in clusters
      ensures |r| == |trainDataset.names|
    {
      seq(|trainDataset.names|, k requires 0 <= k < |trainDataset.names| => StationArtefacts(k, diskModels, diskScalers, clusters).0)
    }

    ghost function KeptScalers(diskModels: map<Station, RidgeForest>, diskScalers: map<Station, Scaler<CalendarRow>>,
                               clusters: map<Station, int>): (r: seq<Scaler<CalendarRow>>)
      requires trainDataset.WellFormed() && forall s :: s in trainDataset.names ==> s in clusters
      ensures |r| == |trainDataset.names|
    {
      seq(|trainDataset.names|, k requires 0 <= k < |trainDataset.names| => StationArtefacts(k, diskModels, diskScalers, clusters).1)
    }

    /** Station `j`'s pass of `train`'s loop, as the loop invariant sees it:
        after it the first `j + 1` stations hold what the loop keeps. */
    method TrainStep(j: nat, ghost models0: map<Station, RidgeForest>, ghost scalers0: map<Station, Scaler<CalendarRow>>,
                     ghost saved0: map<Station, RidgeForest>, ghost savedScalers0: map<Station, Scaler<CalendarRow>>,
                     ghost keptModels: seq<RidgeForest>, ghost keptScalers: seq<Scaler<CalendarRow>>)
      requires Valid() && j < |trainDataset.names| && trainDataset.names[j] in stationClusters
      requires |keptModels| == |keptScalers| == |trainDataset.names|
      requires (keptModels[j], keptScalers[j]) == StationArtefacts(j, saved0, savedScalers0, stationClusters)
      requires var names := trainDataset.names;
        && models == Overlay(models0, names[..j], keptModels[..j])
        && scalers == Overlay(scalers0, names[..j], keptScalers[..j])
        && savedModels == Overlay(saved0, names[..j], keptModels[..j])
        && savedScalers == Overlay(savedScalers0, names[..j], keptScalers[..j])
      modifies this
      ensures Valid() && stationClusters == old(stationClusters)
      ensures var names := trainDataset.names;
        && models == Overlay(models0, names[..j + 1], keptModels[..j + 1])
        && scalers == Overlay(scalers0, names[..j + 1], keptScalers[..j + 1])
        && savedModels == Overlay(saved0, names[..j + 1], keptModels[..j + 1])
        && savedScalers == Overlay(savedScalers0, names[..j + 1], keptScalers[..j + 1])
    {
      var names := trainDataset.names;
      var station := names[j];
      assert station !in names[..j] by {
        forall k | 0 <= k < j ensures names[..j][k] != station { }
      }
      OverlayElsewhere(saved0, names[..j], keptModels[..j], station);
      OverlayElsewhere(savedScalers0, names[..j], keptScalers[..j], station);
      TrainStation(j, saved0, savedScalers0);
      OverlaySnoc(models0, names, keptModels, j);
      OverlaySnoc(scalers0, names, keptScalers, j);
      OverlaySnoc(saved0, names, keptModels, j);
      OverlaySnoc(savedScalers0, names, keptScalers, j);
    }

    /** `train`: the stations are clustered on their correlation matrix, then
        every training station gets its model pair and scaler, loaded when both
        files exist and otherwise fitted and written to disk. */
    method Train()
      requires Valid()
      modifies this
      ensures Valid()
      ensures stationClusters == ClusterMap(trainDataset.names, learners.kmeans(nClusters, trainDataset))
      ensures forall j :: 0 <= j < |trainDataset.names| ==>
        stationClusters[trainDataset.names[j]] == learners.kmeans(nClusters, trainDataset)[j]
      ensures var kept := KeptModels(old(savedModels), old(savedScalers), stationClusters);
        models == Overlay(old(models), trainDataset.names, kept)
        && savedModels == Overlay(old(savedModels), trainDataset.names, kept)
      ensures var kept := KeptScalers(old(savedModels), old(savedScalers), stationClusters);
        scalers == Overlay(old(scalers), trainDataset.names, kept)
        && savedScalers == Overlay(old(savedScalers), trainDataset.names, kept)
    {
      ClusterStations();
      TrainStations();
    }

    /** The clustering step of `train`. */
    method ClusterStations()
      requires Valid()
      modifies this
      ensures Valid()
      ensures stationClusters == ClusterMap(trainDataset.names, learners.kmeans(nClusters, trainDataset))
      ensures forall j :: 0 <= j < |trainDataset.names| ==>
        stationClusters[trainDataset.names[j]] == learners.kmeans(nClusters, trainDataset)[j]
      ensures forall s :: s in trainDataset.names ==> s in stationClusters
      ensures models == old(models) && scalers == old(scalers)
      ensures savedModels == old(savedModels) && savedScalers == old(savedScalers)
    {
      var clusters := learners.kmeans(nClusters, trainDataset);
      stationClusters := ClusterMap(trainDataset.names, clusters);
      ClusterMapCoversStations(trainDataset.names, clusters);
    }

    /** The loop of `train` over the stations in column order. */
    method TrainStations()
      requires Valid() && forall s :: s in trainDataset.names ==> s in stationClusters
      modifies this
      ensures Valid() && stationClusters == old(stationClusters)
      ensures var kept := KeptModels(old(savedModels), old(savedScalers), stationClusters);
        models == Overlay(old(models), trainDataset.names, kept)
        && savedModels == Overlay(old(savedModels), trainDataset.names, kept)
      ensures var kept := KeptScalers(old(savedModels), old(savedScalers), stationClusters);
        scalers == Overlay(old(scalers), trainDataset.names, kept)
        && savedScalers == Overlay(old(savedScalers), trainDataset.names, kept)
    {
      var names := trainDataset.names;
      ghost var clusters := stationClusters;
      ghost var models0, scalers0, saved0, savedScalers0 := models, scalers, savedModels, savedScalers;
      ghost var keptModels := KeptModels(saved0, savedScalers0, clusters);
      ghost var keptScalers := KeptScalers(saved0, savedScalers0, clusters);
      var j := 0;
      while j < |names|
        invariant 0 <= j <= |names|
        invariant Valid() && stationClusters == clusters
        invariant models == Overlay(models0, names[..j], keptModels[..j])
        invariant scalers == Overlay(scalers0, names[..j], keptScalers[..j])
        invariant savedModels == Overlay(saved0, names[..j], keptModels[..j])
        invariant savedScalers == Overlay(savedScalers0, names[..j], keptScalers[..j])
      {
        TrainStep(j, models0, scalers0, saved0, savedScalers0, keptModels, keptScalers);
        j := j + 1;
      }
      assert names[..j] == names && keptModels[..j] == keptModels && keptScalers[..j] == keptScalers;
    }

    /** `predict`: an unknown station is an error; otherwise the mean of the
        station's two models on the scaled calendar rows of the next hours. */
    method Predict(station: Station, data: Series<real>) returns (r: Result<Series<real>>)
      requires Valid()
      ensures station !in models ==> r == Err(ModelNotFound)
      ensures station in models ==>
        r == RidgeForecast(models[station], scalers[station], stationClusters[station], predictionLength, data)
    {
      if station !in models {
        return Err(ModelNotFound);
      }
      var model, scaler := models[station], scalers[station];
      var index := ForecastIndexFromSeries(data, predictionLength);
      if index.Err? {
        return Err(index.error);
      }
      if |index.value| == 0 {
        return Err(NoSamples);
      }
      var x := TransformRows(scaler, ForecastRows(index.value, stationClusters[station]));
      r := Ok(Indexed(index.value, seq(|x|, j requires 0 <= j < |x| => Average(model, x[j]))));
    }
  }
}
