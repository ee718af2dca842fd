/** The shared set-up of the forecasting strategies: a city's hourly frame, a
    prediction length, a chronological train/test split, and the forecast index
    that starts one hour after the last timestamp of a history series. */
module PredictionSetup {
  import opened Wrappers
  import opened Calendar
  import opened Sequences
  import opened Frames

  class PredictSetup {
    /** `city.df_hours` */
    const city: Frame
    const predictionLength: int
    /** `df_hours` indexed by date */
    const dataset: Frame
    var trainDataset: Frame
    var testDataset: Frame

    constructor (city: Frame, predictionLength: int, trainSize: real)
      requires city.WellFormed()
      ensures this.city == city && this.predictionLength == predictionLength
      ensures dataset == city
      ensures trainDataset == TrainPart(city, trainSize)
      ensures testDataset == TestPart(city, trainSize)
    {
      this.city := city;
      this.predictionLength := predictionLength;
      dataset := city;
      new;
      SplitData(trainSize);
    }

    /** Cuts the dataset at `int(len(df_hours) * train_size)` by position. */
    method SplitData(trainSize: real)
      requires dataset == city && city.WellFormed()
      modifies this
      ensures trainDataset == TrainPart(dataset, trainSize)
      ensures testDataset == TestPart(dataset, trainSize)
      ensures trainDataset.dates + testDataset.dates == dataset.dates
    {
      var splitPoint := SplitPoint(|city.dates|, trainSize);
      trainDataset := Head(dataset, splitPoint);
      testDataset := Tail(dataset, splitPoint);
      SplitIsPartition(dataset, trainSize);
    }
  }

  /** `get_DatetimeIndex_from_Series`: the hours from `last + 1h` to
      `last + prediction_length h`, both included; empty when the length is not
      positive (the range then ends before it starts). The last timestamp of an
      empty series does not exist. */
  function ForecastIndexFromSeries<V>(serie: Series<V>, predictionLength: int): (r: Result<seq<Timestamp>>)
    ensures r.Err? <==> |serie.index| == 0
    ensures r.Err? ==> r.error == EmptySeries
    ensures r.Ok? ==> |r.value| == Max(predictionLength, 0)
    ensures r.Ok? ==> forall i :: 0 <= i < |r.value| ==> r.value[i] == LastStamp(serie) + 1 + i
    ensures r.Ok? && predictionLength >= 1 ==>
      r.value[0] == LastStamp(serie) + 1 && r.value[predictionLength - 1] == LastStamp(serie) + predictionLength
    ensures r.Ok? ==> forall i :: 0 <= i < |r.value| - 1 ==> r.value[i] < r.value[i + 1] == r.value[i] + 1
  {
    if |serie.index| == 0 then Err(EmptySeries)
    else
      var start := LastStamp(serie) + 1;
      var end := LastStamp(serie) + predictionLength;
      Ok(DateRange(start, end - start + 1))
  }
}
