/** `XGBoostPCA`: per station, a PCA of the calendar feature rows and a
    gradient-boosted regressor on the principal components, kept in one saved
    dictionary `{'model': ..., 'pca': ...}` per station. */
module XGBoostPca {
  import opened Wrappers
  import opened Calendar
  import opened Sequences
  import opened Frames
  import opened StationMaps
  import opened Estimators
  import opened ForecastModel

  /** The saved dictionary of one station. */
  datatype PcaModel = PcaModel(model: Regressor<seq<real>>, pca: DateFeatures -> seq<real>)

  /** `model.predict(pca.transform(row))` */
  function PredictRow(m: PcaModel, t: Timestamp): real {
    m.model.predict(m.pca(FeaturesOf(t)))
  }

  /** `predict` once the station's dictionary is found: `forecast_length`
      clipped predictions for the hours starting AT the history's last
      timestamp. An empty history has no last timestamp; a length that is not
      positive leaves the PCA no row to transform. */
  function PcaForecast(m: PcaModel, data: Series<real>, forecastLength: int): (r: Result<Series<real>>)
    ensures r == Err(EmptySeries) <==> |data.index| == 0
    ensures r == Err(NoSamples) <==> |data.index| > 0 && forecastLength <= 0
    ensures r.Err? ==> r == Err(EmptySeries) || r == Err(NoSamples)
    ensures r.Ok? ==>
      && |r.value.index| == forecastLength
      && r.value.index[0] == LastStamp(data)
      && (forall j :: 0 <= j < forecastLength ==> r.value.index[j] == LastStamp(data) + j)
      && (forall j :: 0 <= j < forecastLength ==> r.value.values[j] == Clip(PredictRow(m, r.value.index[j])))
      && forall j :: 0 <= j < forecastLength ==> 0.0 <= r.value.values[j] <= 1.0
  {
    match ForecastIndexForecasting(data, forecastLength)
    case Err(e) => Err(e)
    case Ok(index) =>
      if |index| == 0 then Err(NoSamples)
      else
        var rows := CreateFeaturesFromDate(index);
        Ok(Indexed(index, ClipAll(seq(|rows|, j requires 0 <= j < |rows| => m.model.predict(m.pca(rows[j]))))))
  }

  /** The forecast depends on the hours only, not on the history's values: two
      histories that end at the same hour give the same forecast. */
  lemma PcaForecastIgnoresValues(m: PcaModel, a: Series<real>, b: Series<real>, forecastLength: int)
    requires |a.index| > 0 && |b.index| > 0 && LastStamp(a) == LastStamp(b)
    ensures PcaForecast(m, a, forecastLength) == PcaForecast(m, b, forecastLength)
  {
    if forecastLength > 0 {
      var ra, rb := PcaForecast(m, a, forecastLength).value, PcaForecast(m, b, forecastLength).value;
      assert ra.index == rb.index;
      assert ra.values == rb.values;
    }
  }

  /** The fitting routines, given to the model. */
  datatype PcaLearners = PcaLearners(
    /** `PCA(n_components).fit(df_X)` */
    fitPca: (nat, seq<DateFeatures>) -> (DateFeatures -> seq<real>),
    /** `XGBRegressor(...).fit(X_pca, df_y)` */
    fit: (seq<seq<real>>, seq<real>) -> (seq<real> -> real))

  class XGBoostPca {
    const nComponents: nat
    const trainDataset: Frame
    const testDataset: Frame
    const learners: PcaLearners
    var models: map<Station, PcaModel>
    /** `XGBoostPCA/<station>.pkl` */
    var savedModels: map<Station, PcaModel>

    ghost predicate Valid()
      reads this
    {
      trainDataset.WellFormed()
    }

    constructor (city: Frame, trainSize: real, nComponents: nat, learners: PcaLearners, savedModels: map<Station, PcaModel>)
      requires city.WellFormed()
      ensures Valid() && models == map[]
      ensures this.nComponents == nComponents && this.learners == learners
      ensures trainDataset == TrainPart(city, trainSize) && testDataset == TestPart(city, trainSize)
      ensures this.savedModels == savedModels
    {
      this.nComponents := nComponents;
      this.learners := learners;
      trainDataset := TrainPart(city, trainSize);
      testDataset := TestPart(city, trainSize);
      this.savedModels := savedModels;
      models := map[];
    }

    /** The dictionary a fresh fit gives station `j`: the PCA of every
        training hour's feature row, and the regressor on its components. */
    function FitStation(j: nat): (m: PcaModel)
      requires trainDataset.WellFormed() && j < |trainDataset.names|
    {
      var x := CreateFeaturesFromDate(trainDataset.dates);
      var pca := learners.fitPca(nComponents, x);
      PcaModel(Regressor(learners.fit(seq(|x|, i requires 0 <= i < |x| => pca(x[i])), trainDataset.columns[j])), pca)
    }

    /** What `train` keeps for station `j`: the saved dictionary when the load
        succeeds, otherwise a fresh fit. */
    function StationModel(j: nat, disk: map<Station, PcaModel>): PcaModel
      requires trainDataset.WellFormed() && j < |trainDataset.names|
    {
      var s := trainDataset.names[j];
      if s in disk then disk[s] else FitStation(j)
    }

    ghost function KeptModels(disk: map<Station, PcaModel>): (r: seq<PcaModel>)
      requires trainDataset.WellFormed()
      ensures |r| == |trainDataset.names|
    {
      seq(|trainDataset.names|, k requires 0 <= k < |trainDataset.names| => StationModel(k, disk))
    }

    /** One pass of `train`'s loop over the files as they were before the loop. */
    method TrainStation(j: nat, ghost disk: map<Station, PcaModel>)
      requires Valid() && j < |trainDataset.names|
      requires Unchanged(savedModels, disk, trainDataset.names[j])
      modifies this
      ensures Valid()
      ensures var s, m := trainDataset.names[j], StationModel(j, disk);
        models == old(models)[s := m] && savedModels == old(savedModels)[s := m]
    {
      var station := trainDataset.names[j];
      ghost var models0, saved0 := models, savedModels;
      ghost var m := StationModel(j, disk);
      if station in savedModels {
        models := models[station := savedModels[station]];
        UpdateWithOwn(saved0, station);
        UpdateAgrees(models0, station, saved0[station], m);
      } else {
        var fit := FitStation(j);
        savedModels := savedModels[station := fit];
        models := models[station := fit];
        UpdateAgrees(models0, station, fit, m);
        UpdateAgrees(saved0, station, fit, m);
      }
    }

    /** `train`: every training station gets its dictionary, loaded when its
        file exists and otherwise fitted and saved. */
    method Train()
      requires Valid()
      modifies this
      ensures Valid()
      ensures var kept := KeptModels(old(savedModels));
        models == Overlay(old(models), trainDataset.names, kept)
        && savedModels == Overlay(old(savedModels), trainDataset.names, kept)
    {
      var names := trainDataset.names;
      ghost var models0, saved0 := models, savedModels;
      ghost var kept := KeptModels(saved0);
      var j := 0;
      while j < |names|
        invariant 0 <= j <= |names|
        invariant Valid()
        invariant models == Overlay(models0, names[..j], kept[..j])
        invariant savedModels == Overlay(saved0, names[..j], kept[..j])
      {
        var station := names[j];
        assert station !in names[..j] by {
          forall k | 0 <= k < j ensures names[..j][k] != station { }
        }
        OverlayElsewhere(saved0, names[..j], kept[..j], station);
        TrainStation(j, saved0);
        OverlaySnoc(models0, names, kept, j);
        OverlaySnoc(saved0, names, kept, j);
        j := j + 1;
      }
      assert names[..j] == names && kept[..j] == kept;
    }

    /** `predict`: an unknown station is an error; otherwise the station's
        forecast over `forecast_length` hours. */
    method Predict(station: Station, data: Series<real>, forecastLength: int) returns (r: Result<Series<real>>)
      ensures station !in models ==> r == Err(ModelNotFound)
      ensures station in models ==> r == PcaForecast(models[station], data, forecastLength)
    {
      if station !in models {
        return Err(ModelNotFound);
      }
      var m := models[station];
      var index := ForecastIndexForecasting(data, forecastLength);
      if index.Err? {
        return Err(index.error);
      }
      if |index.value| == 0 {
        return Err(NoSamples);
      }
      var x := CreateFeaturesFromDate(index.value);
      var predictions := seq(|x|, j requires 0 <= j < |x| => m.model.predict(m.pca(x[j])));
      r := Ok(Indexed(index.value, ClipAll(predictions)));
    }
  }
}
