/** `RandomForestPredictor`: per station, a multi-output random forest that
    maps the last `hours` observations to the next `prediction_length` ones,
    fitted on the sliding windows of the training column. */
module RandomForestPredictor {
  import opened Wrappers
  import opened Calendar
  import opened Sequences
  import opened Frames
  import opened StationMaps
  import opened Estimators
  import opened PredictionSetup

  /** `len(range(0, n - tw - fw))` */
  function WindowCount(n: nat, tw: nat, fw: nat): (c: nat)
    ensures c == Max(n - tw - fw, 0)
  {
    if n - tw - fw > 0 then n - tw - fw else 0
  }

  /** The inputs of the sliding-window dataset: row `i` is `s[i : i + tw]`. */
  function WindowInputs(s: seq<real>, tw: nat, fw: nat): (x: seq<seq<real>>)
    ensures |x| == WindowCount(|s|, tw, fw)
    ensures forall i :: 0 <= i < |x| ==> i + tw + fw < |s| && x[i] == s[i..i + tw]
  {
    seq(WindowCount(|s|, tw, fw), i requires 0 <= i < WindowCount(|s|, tw, fw) => s[i..i + tw])
  }

  /** The targets: row `i` is `s[i + tw : i + tw + fw]`, the hours right
      after input row `i`. */
  function WindowTargets(s: seq<real>, tw: nat, fw: nat): (y: seq<seq<real>>)
    ensures |y| == WindowCount(|s|, tw, fw)
    ensures forall i :: 0 <= i < |y| ==> i + tw + fw < |s| && y[i] == s[i + tw..i + tw + fw]
  {
    seq(WindowCount(|s|, tw, fw), i requires 0 <= i < WindowCount(|s|, tw, fw) => s[i + tw..i + tw + fw])
  }

  /** Each input window is followed without gap by its target window, and
      together they are a stretch of the column. */
  lemma WindowsAreAdjacent(s: seq<real>, tw: nat, fw: nat, i: nat)
    requires i < WindowCount(|s|, tw, fw)
    ensures |WindowInputs(s, tw, fw)[i]| == tw && |WindowTargets(s, tw, fw)[i]| == fw
    ensures WindowInputs(s, tw, fw)[i] + WindowTargets(s, tw, fw)[i] == s[i..i + tw + fw]
  {
    assert s[i..i + tw + fw] == s[i..i + tw] + s[i + tw..i + tw + fw];
  }

  /** The range stops one start short: the window starting at `n - tw - fw`,
      whose target ends exactly at the last observation, is never built, so the
      last observation is never a target. */
  lemma LastWindowIsSkipped(s: seq<real>, tw: nat, fw: nat)
    requires tw + fw <= |s|
    ensures |s| - tw - fw == WindowCount(|s|, tw, fw) == |WindowTargets(s, tw, fw)|
    ensures forall i :: 0 <= i < |WindowTargets(s, tw, fw)| ==>
      |WindowTargets(s, tw, fw)[i]| == fw && i + tw + |WindowTargets(s, tw, fw)[i]| <= |s| - 1
  {
  }

  /** The loop of `train` that collects the windows of one column. */
  method BuildWindows(s: seq<real>, tw: nat, fw: nat) returns (x: seq<seq<real>>, y: seq<seq<real>>)
    ensures x == WindowInputs(s, tw, fw) && y == WindowTargets(s, tw, fw)
  {
    x, y := [], [];
    var count := if |s| - tw - fw > 0 then |s| - tw - fw else 0;
    var i := 0;
    while i < count
      invariant 0 <= i <= count && count == WindowCount(|s|, tw, fw)
      invariant x == WindowInputs(s, tw, fw)[..i] && y == WindowTargets(s, tw, fw)[..i]
    {
      x := x + [s[i..i + tw]];
      y := y + [s[i + tw..i + tw + fw]];
      i := i + 1;
    }
    assert WindowInputs(s, tw, fw)[..i] == WindowInputs(s, tw, fw);
    assert WindowTargets(s, tw, fw)[..i] == WindowTargets(s, tw, fw);
  }

  /** `predict` once the station's model is found: the model's output on the
      history's last `tw` values, clipped, indexed from one hour after the last
      timestamp. An empty history has no last timestamp; a history whose
      `data.iloc[-tw:]` does not hold exactly `tw` values is refused (with
      `tw == 0` that slice is the whole, non-empty, history); an output of the
      wrong length does not fit the index. */
  function RfForecast(model: MultiRegressor<seq<real>>, tw: nat, horizon: nat, data: Series<real>)
    : (r: Result<Series<real>>)
    ensures r == Err(EmptySeries) <==> |data.index| == 0
    ensures r == Err(NotEnoughHistory) <==> |data.index| > 0 && (tw == 0 || |data.values| < tw)
    ensures r == Err(LengthMismatch) <==>
      |data.index| > 0 && 1 <= tw <= |data.values| && |model.predict(data.values[|data.values| - tw..])| != horizon
    ensures r.Err? ==> r == Err(EmptySeries) || r == Err(NotEnoughHistory) || r == Err(LengthMismatch)
    ensures r.Ok? ==>
      && 1 <= tw <= |data.values|
      && |r.value.index| == horizon
      && (forall j :: 0 <= j < horizon ==> r.value.index[j] == LastStamp(data) + 1 + j)
      && r.value.values == ClipAll(model.predict(data.values[|data.values| - tw..]))
  {
    match ForecastIndexFromSeries(data, horizon)
    case Err(e) => Err(e)
    case Ok(index) =>
      var future := Last(data.values, tw);
      if |future| != tw then Err(NotEnoughHistory)
      else
        var predictions := model.predict(future);
        if |predictions| != |index| then Err(LengthMismatch)
        else Ok(Indexed(index, ClipAll(predictions)))
  }

  /** The fitting routine, given to the strategy. */
  datatype RfLearners = RfLearners(
    /** `RandomForestRegressor(...).fit(X, y)` */
    fit: (seq<seq<real>>, seq<seq<real>>) -> (seq<real> -> seq<real>))

  class RandomForestPredictor {
    const predictionLength: nat
    /** `hours`, the input window */
    const hours: nat
    const trainDataset: Frame
    const testDataset: Frame
    const learners: RfLearners
    var models: map<Station, MultiRegressor<seq<real>>>
    /** `RFModels/<station>_model.pkl` */
    var savedModels: map<Station, MultiRegressor<seq<real>>>

    ghost predicate Valid()
      reads this
    {
      trainDataset.WellFormed()
    }

    constructor (city: Frame, predictionLength: nat, trainSize: real, hours: nat, learners: RfLearners,
                 savedModels: map<Station, MultiRegressor<seq<real>>>)
      requires city.WellFormed()
      ensures Valid() && models == map[]
      ensures this.predictionLength == predictionLength && this.hours == hours && this.learners == learners
      ensures trainDataset == TrainPart(city, trainSize) && testDataset == TestPart(city, trainSize)
      ensures this.savedModels == savedModels
    {
      this.predictionLength := predictionLength;
      this.hours := hours;
      this.learners := learners;
      trainDataset := TrainPart(city, trainSize);
      testDataset := TestPart(city, trainSize);
      this.savedModels := savedModels;
      models := map[];
    }

    /** The forest a fresh fit gives station `j`: inputs of `hours` values,
        targets of `prediction_length` values. */
    function FitStation(j: nat): MultiRegressor<seq<real>>
      requires trainDataset.WellFormed() && j < |trainDataset.names|
    {
      var s := trainDataset.columns[j];
      MultiRegressor(learners.fit(WindowInputs(s, hours, predictionLength), WindowTargets(s, hours, predictionLength)))
    }

    /** The fitting branch of `train`'s loop. */
    method FitModel(j: nat) returns (model: MultiRegressor<seq<real>>)
      requires Valid() && j < |trainDataset.names|
      ensures model == FitStation(j)
    {
      var x, y := BuildWindows(trainDataset.columns[j], hours, predictionLength);
      model := MultiRegressor(learners.fit(x, y));
    }

    /** What `train` keeps for station `j`: the saved forest when its file
        exists, otherwise a fresh fit. */
    function StationModel(j: nat, disk: map<Station, MultiRegressor<seq<real>>>): MultiRegressor<seq<real>>
      requires trainDataset.WellFormed() && j < |trainDataset.names|
    {
      var s := trainDataset.names[j];
      if s in disk then disk[s] else FitStation(j)
    }

    ghost function KeptModels(disk: map<Station, MultiRegressor<seq<real>>>): (r: seq<MultiRegressor<seq<real>>>)
      requires trainDataset.WellFormed()
      ensures |r| == |trainDataset.names|
    {
      seq(|trainDataset.names|, k requires 0 <= k < |trainDataset.names| => StationModel(k, disk))
    }

    /** One pass of `train`'s loop over the files as they were before the loop. */
    method TrainStation(j: nat, ghost disk: map<Station, MultiRegressor<seq<real>>>)
      requires Valid() && j < |trainDataset.names|
      requires Unchanged(savedModels, disk, trainDataset.names[j])
      modifies this
      ensures Valid()
      ensures var s, m := trainDataset.names[j], StationModel(j, disk);
        models == old(models)[s := m] && savedModels == old(savedModels)[s := m]
    {
      var station := trainDataset.names[j];
      ghost var models0, saved0 := models, savedModels;
      ghost var m := StationModel(j, disk);
      if station in savedModels {
        models := models[station := savedModels[station]];
        UpdateWithOwn(saved0, station);
        UpdateAgrees(models0, station, saved0[station], m);
      } else {
        var model := FitModel(j);
        savedModels := savedModels[station := model];
        models := models[station := model];
        UpdateAgrees(models0, station, model, m);
        UpdateAgrees(saved0, station, model, m);
      }
    }

    /** `train`: every training station gets its forest, loaded when its file
        exists and otherwise fitted on the column's sliding windows and saved. */
    method Train()
      requires Valid()
      modifies this
      ensures Valid()
      ensures var kept := KeptModels(old(savedModels));
        models == Overlay(old(models), trainDataset.names, kept)
        && savedModels == Overlay(old(savedModels), trainDataset.names, kept)
    {
      var names := trainDataset.names;
      ghost var models0, saved0 := models, savedModels;
      ghost var kept := KeptModels(saved0);
      var j := 0;
      while j < |names|
        invariant 0 <= j <= |names|
        invariant Valid()
        invariant models == Overlay(models0, names[..j], kept[..j])
        invariant savedModels == Overlay(saved0, names[..j], kept[..j])
      {
        var station := names[j];
        assert station !in names[..j] by {
          forall k | 0 <= k < j ensures names[..j][k] != station { }
        }
        OverlayElsewhere(saved0, names[..j], kept[..j], station);
        TrainStation(j, saved0);
        OverlaySnoc(models0, names, kept, j);
        OverlaySnoc(saved0, names, kept, j);
        j := j + 1;
      }
      assert names[..j] == names && kept[..j] == kept;
    }

    /** `predict`: an unknown station is an error; otherwise the station's
        forest on the last `hours` observations. */
    method Predict(station: Station, data: Series<real>) returns (r: Result<Series<real>>)
      ensures station !in models ==> r == Err(ModelNotFound)
      ensures station in models ==> r == RfForecast(models[station], hours, predictionLength, data)
    {
      if station !in models {
        return Err(ModelNotFound);
      }
      var model := models[station];
      var index := ForecastIndexFromSeries(data, predictionLength);
      if index.Err? {
        return Err(index.error);
      }
      var future := Last(data.values, hours);
      if |future| != hours {
        return Err(NotEnoughHistory);
      }
      var predictions := model.predict(future);
      if |predictions| != |index.value| {
        return Err(LengthMismatch);
      }
      r := Ok(Indexed(index.value, ClipAll(predictions)));
    }
  }
}
