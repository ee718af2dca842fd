/** The fitted estimators the strategies use, taken as uninterpreted functions:
    a fitted model is the function it computes, and fitting is a function the
    strategy is given. */
module Estimators {
  import opened Sequences
  import opened Frames

  /** A fitted single-output regressor (LinearRegression, XGBRegressor, Ridge, a
      LightGBM booster ...): one prediction per feature row. */
  datatype Regressor<!X> = Regressor(predict: X -> real)

  /** A fitted multi-output regressor (RandomForestRegressor on windows): a
      vector of predictions per feature row. */
  datatype MultiRegressor<!X> = MultiRegressor(predict: X -> seq<real>)

  /** A fitted StandardScaler: the column names it was fitted on
      (`feature_names_in_`) and its row transform. */
  datatype Scaler<!X> = Scaler(featureNames: seq<string>, transform: X -> seq<real>)

  /** `model.predict(X)` row by row. */
  function PredictRows<X>(m: Regressor<X>, rows: seq<X>): (r: seq<real>)
    ensures |r| == |rows|
    ensures forall i :: 0 <= i < |rows| ==> r[i] == m.predict(rows[i])
  {
    seq(|rows|, i requires 0 <= i < |rows| => m.predict(rows[i]))
  }

  /** `scaler.transform(X)` row by row. */
  function TransformRows<X>(s: Scaler<X>, rows: seq<X>): (r: seq<seq<real>>)
    ensures |r| == |rows|
    ensures forall i :: 0 <= i < |rows| ==> r[i] == s.transform(rows[i])
  {
    seq(|rows|, i requires 0 <= i < |rows| => s.transform(rows[i]))
  }

  /** `{station: cluster for station, cluster in zip(columns, clusters)}`: zip
      stops at the shorter sequence, and a later pair overwrites an earlier one. */
  function ClusterMap(names: seq<Station>, clusters: seq<int>): (m: map<Station, int>)
    ensures m.Keys == set j | 0 <= j < Min(|names|, |clusters|) :: names[j]
  {
    if |names| == 0 || |clusters| == 0 then map[]
    else if |names| > |clusters| then ClusterMap(names[..|clusters|], clusters)
    else if |clusters| > |names| then ClusterMap(names, clusters[..|names|])
    else
      var n := |names| - 1;
      var m := ClusterMap(names[..n], clusters[..n]);
      assert (set j | 0 <= j < |names| :: names[j]) == (set j | 0 <= j < n :: names[..n][j]) + {names[n]};
      m[names[n] := clusters[n]]
  }

  /** With distinct names, each station is mapped to its own label. */
  lemma {:induction false} ClusterMapAt(names: seq<Station>, clusters: seq<int>)
    requires Distinct(names) && |clusters| >= |names|
    ensures forall j :: 0 <= j < |names| ==> names[j] in ClusterMap(names, clusters)
    ensures forall j :: 0 <= j < |names| ==> ClusterMap(names, clusters)[names[j]] == clusters[j]
  {
    if |names| > 0 {
      if |clusters| > |names| {
        ClusterMapAt(names, clusters[..|names|]);
      } else {
        var n := |names| - 1;
        var prev := ClusterMap(names[..n], clusters[..n]);
        ClusterMapAt(names[..n], clusters[..n]);
        forall j | 0 <= j < |names| ensures names[j] in ClusterMap(names, clusters) && ClusterMap(names, clusters)[names[j]] == clusters[j] {
          if j < n {
            assert names[..n][j] == names[j] && names[j] != names[n];
            assert prev[names[j]] == clusters[..n][j];
          }
        }
      }
    }
  }

  /** KMeans labels every station, so every training column receives its own
      cluster id. */
  lemma ClusterMapCoversStations(names: seq<Station>, clusters: seq<int>)
    requires Distinct(names) && |clusters| >= |names|
    ensures ClusterMap(names, clusters).Keys == set s | s in names
    ensures forall j :: 0 <= j < |names| ==> ClusterMap(names, clusters)[names[j]] == clusters[j]
  {
    ClusterMapAt(names, clusters);
    assert (set s | s in names) == (set j | 0 <= j < |names| :: names[j]) by {
      forall s | s in names ensures s in (set j | 0 <= j < |names| :: names[j]) {
        var j :| 0 <= j < |names| && names[j] == s;
      }
    }
  }
}
