/** The PCA-reconstruction strategy: the observed weekday-by-hour mean profile
    of the training data, smoothed by keeping the leading principal components,
    then looked up by the calendar key of each forecast hour. The principal
    component analysis itself is an uninterpreted fit. */
module PcaPredictor {
  import opened Wrappers
  import opened Calendar
  import opened Sequences
  import opened Frames
  import opened MeanPredictor
  import opened PredictionSetup

  /** The keys of `ks` that some row of `dates` has, in the order of `ks`. */
  function ObservedAmong(ks: seq<CalendarKey>, dates: seq<Timestamp>): (r: seq<CalendarKey>)
    ensures forall k :: k in r <==> k in ks && CountAt(dates, k) > 0
    ensures SortedKeys(ks) ==> SortedKeys(r)
  {
    if |ks| == 0 then []
    else
      var rest := ObservedAmong(ks[1..], dates);
      assert SortedKeys(ks) ==> forall k :: k in rest ==> KeyBefore(ks[0], k) by {
        if SortedKeys(ks) {
          forall k | k in rest ensures KeyBefore(ks[0], k) {
            var i :| 0 <= i < |ks[1..]| && ks[1..][i] == k;
            assert ks[i + 1] == k;
          }
        }
      }
      (if CountAt(dates, ks[0]) > 0 then [ks[0]] else []) + rest
  }

  /** The (weekday, hour) pairs that occur in `dates`, Monday first
      (`groupby(['days', 'hours'], observed=True)`). */
  function ObservedKeys(dates: seq<Timestamp>): (r: seq<CalendarKey>)
    ensures SortedKeys(r)
    ensures forall k :: k in r <==> 0 <= k.day < 7 && 0 <= k.hour < 24 && CountAt(dates, k) > 0
  {
    ObservedAmong(AllKeys(), dates)
  }

  /** The training step's `df_mean`: the mean of every station at every observed
      (weekday, hour) pair. */
  function ObservedMeanTable(df: Frame): (p: Profile<real>)
    requires df.WellFormed()
    ensures p.Shaped() && p.names == df.names && p.keys == ObservedKeys(df.dates)
    ensures forall q, j :: 0 <= q < |p.keys| && 0 <= j < |df.names| ==>
      Some(p.rows[q][j]) == GroupMean(df.dates, df.columns[j], p.keys[q])
  {
    ObservedKeysOccur(df.dates);
    var keys := ObservedKeys(df.dates);
    Profile(keys, df.names, MeanRows(df, keys))
  }

  lemma ObservedKeysOccur(dates: seq<Timestamp>)
    ensures forall q :: 0 <= q < |ObservedKeys(dates)| ==> CountAt(dates, ObservedKeys(dates)[q]) > 0
  {
    var keys := ObservedKeys(dates);
    forall q | 0 <= q < |keys| ensures CountAt(dates, keys[q]) > 0 {
      assert keys[q] in keys;
    }
  }

  /** The rows of `df_mean` at observed keys. */
  function MeanRows(df: Frame, keys: seq<CalendarKey>): (rows: seq<seq<real>>)
    requires df.WellFormed() && forall q :: 0 <= q < |keys| ==> CountAt(df.dates, keys[q]) > 0
    ensures |rows| == |keys|
    ensures forall q :: 0 <= q < |keys| ==> rows[q] == MeanRow(df, keys[q])
  {
    seq(|keys|, q requires 0 <= q < |keys| => MeanRow(df, keys[q]))
  }

  /** The row of `df_mean` at an observed key: every station's group mean. */
  function MeanRow(df: Frame, k: CalendarKey): (row: seq<real>)
    requires df.WellFormed() && CountAt(df.dates, k) > 0
    ensures |row| == |df.names|
    ensures forall j :: 0 <= j < |df.names| ==> Some(row[j]) == GroupMean(df.dates, df.columns[j], k)
  {
    seq(|df.names|, j requires 0 <= j < |df.names| => SumAt(df.dates, df.columns[j], k) / CountAt(df.dates, k) as real)
  }

  /** A fitted PCA: the principal axes (`components_`, one row per component,
      one column per key) and the projection of a station's profile onto them. */
  datatype PcaFit = PcaFit(components: seq<seq<real>>, transform: seq<real> -> seq<real>)

  /** Column `j` of the mean table: station `j`'s profile over the keys. */
  function StationProfile(p: Profile<real>, j: nat): (v: seq<real>)
    requires p.Shaped() && j < |p.names|
    ensures |v| == |p.keys|
  {
    seq(|p.keys|, q requires 0 <= q < |p.keys| => p.rows[q][j])
  }

  /** Σ_{c < n} scores[c] · components[c][q] */
  function Combine(scores: seq<real>, components: seq<seq<real>>, q: nat, n: nat): real
    requires n <= |scores| && n <= |components|
    requires forall c :: 0 <= c < n ==> q < |components[c]|
  {
    if n == 0 then 0.0 else Combine(scores, components, q, n - 1) + scores[n - 1] * components[n - 1][q]
  }

  /** `transform(df_mean.T)[:, :k] @ components_[:k]` is defined: both slices
      keep the same number of components and every axis spans all keys. */
  predicate Conformable(p: Profile<real>, fit: PcaFit, k: nat)
    requires p.Shaped()
  {
    && (forall c :: 0 <= c < |fit.components| ==> |fit.components[c]| == |p.keys|)
    && (forall j :: 0 <= j < |p.names| ==>
          Min(k, |fit.transform(StationProfile(p, j))|) == Min(k, |fit.components|))
  }

  /** The reconstructed profile (transposed back so that stations are columns):
      the combination of the first `k` components with station `j`'s first `k`
      scores. A shape mismatch is numpy's ValueError. */
  function Reconstruct(p: Profile<real>, fit: PcaFit, k: nat): (r: Result<Profile<real>>)
    requires p.Shaped()
    ensures r.Ok? <==> Conformable(p, fit, k)
    ensures r.Err? ==> r.error == LengthMismatch
    ensures r.Ok? ==> r.value.Shaped() && r.value.keys == p.keys && r.value.names == p.names
    ensures r.Ok? ==> forall q, j :: 0 <= q < |p.keys| && 0 <= j < |p.names| ==>
      r.value.rows[q][j] == Combine(fit.transform(StationProfile(p, j)), fit.components, q, Min(k, |fit.components|))
  {
    if !Conformable(p, fit, k) then Err(LengthMismatch)
    else
      var n := Min(k, |fit.components|);
      Ok(Profile(p.keys, p.names,
                 seq(|p.keys|, q requires 0 <= q < |p.keys| =>
                   seq(|p.names|, j requires 0 <= j < |p.names| =>
                     Combine(fit.transform(StationProfile(p, j)), fit.components, q, n)))))
  }

  lemma {:induction false} CombineUsesLeading(s1: seq<real>, c1: seq<seq<real>>, s2: seq<real>, c2: seq<seq<real>>, q: nat, n: nat)
    requires n <= |s1| && n <= |c1| && n <= |s2| && n <= |c2|
    requires forall c :: 0 <= c < n ==> q < |c1[c]| && q < |c2[c]|
    requires s1[..n] == s2[..n] && c1[..n] == c2[..n]
    ensures Combine(s1, c1, q, n) == Combine(s2, c2, q, n)
  {
    if n > 0 {
      assert s1[n - 1] == s1[..n][n - 1] && s2[n - 1] == s2[..n][n - 1];
      assert c1[n - 1] == c1[..n][n - 1] && c2[n - 1] == c2[..n][n - 1];
      assert s1[..n - 1] == s1[..n][..n - 1] && c1[..n - 1] == c1[..n][..n - 1];
      assert s2[..n - 1] == s2[..n][..n - 1] && c2[..n - 1] == c2[..n][..n - 1];
      CombineUsesLeading(s1, c1, s2, c2, q, n - 1);
    }
  }

  /** Only the first `num_components` components and scores enter the
      reconstruction: two fits that agree on them reconstruct the same profile. */
  lemma ReconstructionUsesLeadingComponents(p: Profile<real>, f1: PcaFit, f2: PcaFit, k: nat)
    requires p.Shaped() && Conformable(p, f1, k) && Conformable(p, f2, k)
    requires Min(k, |f1.components|) == Min(k, |f2.components|)
    requires f1.components[..Min(k, |f1.components|)] == f2.components[..Min(k, |f2.components|)]
    requires forall j :: 0 <= j < |p.names| ==>
      f1.transform(StationProfile(p, j))[..Min(k, |f1.components|)]
        == f2.transform(StationProfile(p, j))[..Min(k, |f2.components|)]
    ensures Reconstruct(p, f1, k) == Reconstruct(p, f2, k)
  {
    var n := Min(k, |f1.components|);
    forall q, j | 0 <= q < |p.keys| && 0 <= j < |p.names|
      ensures Reconstruct(p, f1, k).value.rows[q][j] == Reconstruct(p, f2, k).value.rows[q][j]
    {
      CombineUsesLeading(f1.transform(StationProfile(p, j)), f1.components,
                         f2.transform(StationProfile(p, j)), f2.components, q, n);
    }
    var r1, r2 := Reconstruct(p, f1, k).value, Reconstruct(p, f2, k).value;
    assert r1.rows == r2.rows by {
      forall q | 0 <= q < |p.keys| ensures r1.rows[q] == r2.rows[q] { }
    }
  }

  /** The value of station `j` at key `k` of a profile; none when the profile
      has no such key (`reindex` gives NaN). */
  function ProfileAt(p: Profile<real>, k: CalendarKey, j: nat): (r: Option<real>)
    requires p.Shaped() && j < |p.names|
    ensures r.Some? <==> k in p.keys
  {
    match IndexOf(p.keys, k)
    case Some(q) => Some(p.rows[q][j])
    case None => None
  }

  function ClipOption(v: Option<real>): Option<real> {
    match v
    case Some(x) => Some(Clip(x))
    case None => None
  }

  class PredictByPca {
    const predictionLength: int
    const trainDataset: Frame
    const testDataset: Frame
    const numComponents: nat
    /** `get_acp_predictor(df_mean, use_transposed=True).pca` */
    const acp: Profile<real> -> PcaFit
    /** The reconstructed profile; absent before `train`. */
    var model: Option<Profile<real>>

    ghost predicate Valid()
      reads this
    {
      model.Some? ==> model.value.Shaped()
    }

    constructor (city: Frame, predictionLength: int, trainSize: real, numComponents: nat,
                 acp: Profile<real> -> PcaFit)
      requires city.WellFormed()
      ensures Valid() && model == None
      ensures this.predictionLength == predictionLength && this.numComponents == numComponents && this.acp == acp
      ensures trainDataset == TrainPart(city, trainSize) && testDataset == TestPart(city, trainSize)
    {
      this.predictionLength := predictionLength;
      this.numComponents := numComponents;
      this.acp := acp;
      trainDataset := TrainPart(city, trainSize);
      testDataset := TestPart(city, trainSize);
      model := None;
    }

    /** Groups the training data by observed (weekday, hour), fits the PCA on
        the stations' profiles and stores the reconstruction. */
    method Train() returns (error: Option<Error>)
      requires Valid() && trainDataset.WellFormed()
      modifies this
      ensures Valid()
      ensures var dfMean := ObservedMeanTable(trainDataset);
        var r := Reconstruct(dfMean, acp(dfMean), numComponents);
        && (r.Ok? ==> model == Some(r.value) && error == None)
        && (r.Err? ==> model == old(model) && error == Some(r.error))
    {
      var dfMean := ObservedMeanTable(trainDataset);
      var reconstruction := Reconstruct(dfMean, acp(dfMean), numComponents);
      if reconstruction.Err? {
        return Some(reconstruction.error);
      }
      model := Some(reconstruction.value);
      error := None;
    }

    /** `predict`: the forecast hours from `last + 1h`, each valued by the
        station's reconstructed profile at that hour's own (weekday, hour) key,
        clipped to [0, 1]; missing when the profile lacks that key. */
    function Predict(station: Station, data: Series<real>): (r: Result<Series<Option<real>>>)
      requires Valid()
      reads this
      ensures model.None? ==> r == Err(NotTrained)
      ensures model.Some? && station !in model.value.names ==> r == Err(MissingKey)
      ensures model.Some? && station in model.value.names && |data.index| == 0 ==> r == Err(EmptySeries)
      ensures r.Ok? ==> model.Some? && station in model.value.names && |data.index| > 0
      ensures r.Ok? ==> r.value.index == DateRange(LastStamp(data) + 1, predictionLength)
      ensures r.Ok? ==> forall i :: 0 <= i < |r.value.index| ==>
        r.value.values[i] == ClipOption(ProfileAt(model.value, KeyOf(r.value.index[i]), IndexOf(model.value.names, station).value))
      ensures r.Ok? ==> forall i :: 0 <= i < |r.value.values| && r.value.values[i].Some? ==>
        0.0 <= r.value.values[i].value <= 1.0
      ensures r.Ok? ==> forall i :: 0 <= i < |r.value.values| ==>
        (r.value.values[i].Some? <==> KeyOf(r.value.index[i]) in model.value.keys)
    {
      if model.None? then Err(NotTrained)
      else match IndexOf(model.value.names, station)
        case None => Err(MissingKey)
        case Some(j) =>
          match ForecastIndexFromSeries(data, predictionLength)
          case Err(e) => Err(e)
          case Ok(dataIndex) =>
            var table := model.value;
            Ok(Indexed(dataIndex, seq(|dataIndex|, i requires 0 <= i < |dataIndex| =>
                 ClipOption(ProfileAt(table, KeyOf(dataIndex[i]), j)))))
    }

    /** The forecast is aligned by calendar key, not tiled from the start of the
        table: two forecast hours one week apart get the same value. */
    lemma PredictRepeatsWeekly(station: Station, data: Series<real>, i: nat)
      requires Valid() && Predict(station, data).Ok?
      requires i + 168 < |Predict(station, data).value.values|
      ensures Predict(station, data).value.values[i + 168] == Predict(station, data).value.values[i]
    {
      var idx := Predict(station, data).value.index;
      WeekPeriodic(idx[i], 1);
      assert idx[i + 168] == idx[i] + 168 * 1;
    }
  }
}
