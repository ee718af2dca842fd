/** The tabular data of the forecasting code: a pandas Series indexed by hourly
    timestamps, and a city's hourly data frame with one column per station. */
module Frames {
  import opened Wrappers
  import opened Calendar
  import opened Sequences

  /** A station code, the name of a data-frame column. */
  type Station = string

  datatype Indexed<V> = Indexed(index: seq<Timestamp>, values: seq<V>)

  /** A pandas Series: one value per index timestamp. */
  type Series<V> = s: Indexed<V> | |s.index| == |s.values| witness Indexed([], [])

  /** `serie.index[-1]` */
  function LastStamp<V>(s: Series<V>): Timestamp
    requires |s.index| > 0
  {
    s.index[|s.index| - 1]
  }

  /** The index is a gap-free hourly axis. */
  predicate Hourly(index: seq<Timestamp>) {
    forall i :: 0 <= i < |index| ==> index[i] == index[0] + i
  }

  /** `pd.date_range(first, periods=count, freq='h')`: `count` consecutive hours
      from `first`; none when `count <= 0`. */
  function DateRange(first: Timestamp, count: int): (r: seq<Timestamp>)
    ensures |r| == Max(count, 0)
    ensures forall i :: 0 <= i < |r| ==> r[i] == first + i
    ensures Hourly(r)
  {
    seq(Max(count, 0), i => first + i)
  }

  /** A city's hourly data indexed by date: `columns[j]` is the occupancy series
      of station `names[j]`. */
  datatype Frame = Frame(dates: seq<Timestamp>, names: seq<Station>, columns: seq<seq<real>>) {

    predicate WellFormed() {
      && |columns| == |names|
      && Distinct(names)
      && forall j :: 0 <= j < |columns| ==> |columns[j]| == |dates|
    }

    /** `df[names[j]]` */
    function Column(j: nat): (s: Series<real>)
      requires WellFormed() && j < |names|
      ensures s.index == dates && s.values == columns[j]
    {
      Indexed(dates, columns[j])
    }
  }

  /** `df.iloc[:k]` */
  function Head(f: Frame, k: int): (h: Frame)
    requires f.WellFormed()
    ensures h.WellFormed() && h.names == f.names
    ensures h.dates == Take(f.dates, k)
    ensures forall j :: 0 <= j < |f.columns| ==> h.columns[j] == Take(f.columns[j], k)
  {
    Frame(Take(f.dates, k), f.names,
          seq(|f.columns|, j requires 0 <= j < |f.columns| => Take(f.columns[j], k)))
  }

  /** `df.iloc[k:]` */
  function Tail(f: Frame, k: int): (t: Frame)
    requires f.WellFormed()
    ensures t.WellFormed() && t.names == f.names
    ensures t.dates == Drop(f.dates, k)
    ensures forall j :: 0 <= j < |f.columns| ==> t.columns[j] == Drop(f.columns[j], k)
  {
    Frame(Drop(f.dates, k), f.names,
          seq(|f.columns|, j requires 0 <= j < |f.columns| => Drop(f.columns[j], k)))
  }

  /** `int(n * train_size)` */
  function SplitPoint(n: nat, trainSize: real): int {
    Trunc(n as real * trainSize)
  }

  lemma SplitPointInRange(n: nat, trainSize: real)
    requires 0.0 <= trainSize <= 1.0
    ensures 0 <= SplitPoint(n, trainSize) <= n
    ensures SplitPoint(n, trainSize) == (n as real * trainSize).Floor
  {
    assert 0.0 <= n as real * trainSize <= n as real * 1.0;
  }

  /** The training part of a chronological split: the rows before the split point. */
  function TrainPart(f: Frame, trainSize: real): (t: Frame)
    requires f.WellFormed()
    ensures t.WellFormed()
  {
    Head(f, SplitPoint(|f.dates|, trainSize))
  }

  /** The test part of a chronological split: the rows from the split point on. */
  function TestPart(f: Frame, trainSize: real): (t: Frame)
    requires f.WellFormed()
    ensures t.WellFormed()
  {
    Tail(f, SplitPoint(|f.dates|, trainSize))
  }

  /** The split is a partition of the rows into a prefix and the remaining
      suffix, for every fraction: every station's training values followed by
      its test values are its whole series. */
  lemma SplitIsPartition(f: Frame, trainSize: real)
    requires f.WellFormed()
    ensures var train, test := TrainPart(f, trainSize), TestPart(f, trainSize);
      && train.names == f.names && test.names == f.names
      && |train.dates| + |test.dates| == |f.dates|
      && train.dates + test.dates == f.dates
      && train.dates == f.dates[..|train.dates|]
      && (forall j :: 0 <= j < |f.names| ==> train.columns[j] + test.columns[j] == f.columns[j])
  {
    var k := SplitPoint(|f.dates|, trainSize);
    TakeDropPartition(f.dates, k);
    forall j | 0 <= j < |f.names|
      ensures TrainPart(f, trainSize).columns[j] + TestPart(f, trainSize).columns[j] == f.columns[j]
    {
      TakeDropPartition(f.columns[j], k);
    }
  }

  /** For a fraction in [0, 1] the split point is floor(n * train_size) itself,
      so the training part has exactly that many rows. */
  lemma SplitSizes(f: Frame, trainSize: real)
    requires f.WellFormed() && 0.0 <= trainSize <= 1.0
    ensures |TrainPart(f, trainSize).dates| == (|f.dates| as real * trainSize).Floor
    ensures |TestPart(f, trainSize).dates| == |f.dates| - (|f.dates| as real * trainSize).Floor
  {
    SplitPointInRange(|f.dates|, trainSize);
  }

  /** The rows at the given positions, in the given order. */
  function SelectRows(f: Frame, keep: seq<nat>): (r: Frame)
    requires f.WellFormed()
    requires forall i :: 0 <= i < |keep| ==> keep[i] < |f.dates|
    ensures r.WellFormed() && r.names == f.names && |r.dates| == |keep|
    ensures forall i :: 0 <= i < |keep| ==> r.dates[i] == f.dates[keep[i]]
    ensures forall j, i :: 0 <= j < |f.names| && 0 <= i < |keep| ==> r.columns[j][i] == f.columns[j][keep[i]]
  {
    Frame(seq(|keep|, i requires 0 <= i < |keep| => f.dates[keep[i]]), f.names,
          seq(|f.columns|, j requires 0 <= j < |f.columns| =>
            seq(|keep|, i requires 0 <= i < |keep| => f.columns[j][keep[i]])))
  }
}
