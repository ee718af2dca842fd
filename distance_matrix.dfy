/** `diviser_en_lots`: the list of station coordinates cut into batches of at
    most `taille_max` elements, so that each Distance Matrix request stays
    within the service's element limit. */
module DistanceMatrix {
  import opened Wrappers
  import opened Sequences

  /** The batches the generator yields from position `i` on: `elements[i:i+t]`,
      then the batches from `i + t`. */
  function BatchesFrom<T>(elements: seq<T>, t: nat, i: nat): (r: seq<seq<T>>)
    requires t > 0
    decreases |elements| - i
  {
    if i >= |elements| then []
    else [Slice(elements, i, i + t)] + BatchesFrom(elements, t, i + t)
  }

  /** `list(diviser_en_lots(elements, taille_max))`: the starts are
      `range(0, len(elements), taille_max)`, so a zero size is a `ValueError`
      and a negative one yields nothing. */
  function SplitIntoBatches<T>(elements: seq<T>, tailleMax: int): (r: Result<seq<seq<T>>>)
    ensures r.Err? <==> tailleMax == 0
    ensures r.Err? ==> r.error == ZeroStep
    ensures tailleMax < 0 ==> r == Ok([])
  {
    if tailleMax == 0 then Err(ZeroStep)
    else if tailleMax < 0 then Ok([])
    else Ok(BatchesFrom(elements, tailleMax, 0))
  }

  /** The elements of the batches, one after the other. */
  function Concat<T>(batches: seq<seq<T>>): seq<T> {
    if |batches| == 0 then [] else batches[0] + Concat(batches[1..])
  }

  /** The batches from `i` on hold exactly the elements from `i` on, in order. */
  lemma {:induction false} BatchesFromConcat<T>(elements: seq<T>, t: nat, i: nat)
    requires t > 0 && i <= |elements|
    ensures Concat(BatchesFrom(elements, t, i)) == elements[i..]
    decreases |elements| - i
  {
    var n := |elements|;
    if i < n {
      var r := BatchesFrom(elements, t, i);
      assert r[1..] == BatchesFrom(elements, t, i + t);
      if i + t <= n {
        BatchesFromConcat(elements, t, i + t);
        assert elements[i..] == elements[i..i + t] + elements[i + t..];
      } else {
        assert BatchesFrom(elements, t, i + t) == [];
        assert Slice(elements, i, i + t) == elements[i..];
      }
    }
  }

  /** Batch `k` starts at `i + k * t` and runs to `t` elements further, or to
      the end of the list. */
  lemma {:induction false} BatchesFromAt<T>(elements: seq<T>, t: nat, i: nat, k: nat)
    requires t > 0 && k < |BatchesFrom(elements, t, i)|
    ensures i + k * t < |elements|
    ensures BatchesFrom(elements, t, i)[k] == elements[i + k * t..Min(i + k * t + t, |elements|)]
    decreases k
  {
    if k > 0 {
      BatchesFromAt(elements, t, i + t, k - 1);
      assert (i + t) + (k - 1) * t == i + k * t;
    }
  }

  /** There is a batch `k` exactly when its start `i + k * t` lies in the list. */
  lemma {:induction false} BatchesFromCount<T>(elements: seq<T>, t: nat, i: nat, k: nat)
    requires t > 0
    ensures k < |BatchesFrom(elements, t, i)| <==> i + k * t < |elements|
    decreases k
  {
    if i < |elements| && k > 0 {
      BatchesFromCount(elements, t, i + t, k - 1);
      assert (i + t) + (k - 1) * t == i + k * t;
    }
  }

  /** The number of whole `t`s below `m` is pinned down by its bounds. */
  lemma QuotientOfBounds(m: int, t: int, c: int)
    requires t >= 1 && c * t <= m < c * t + t
    ensures m / t == c
  {
    var q := m / t;
    DivBounds(m, t);
    if q < c {
      MulMonotone(q + 1, c, t);
      assert false;
    } else if q > c {
      MulMonotone(c + 1, q, t);
      assert false;
    }
  }

  /** There are `ceil(n / t)` batches: the starts `0, t, 2t, ...` below `n`. */
  lemma BatchCount<T>(elements: seq<T>, t: nat)
    requires t > 0
    ensures |BatchesFrom(elements, t, 0)| == (|elements| + t - 1) / t
  {
    var n, c := |elements|, |BatchesFrom(elements, t, 0)|;
    BatchesFromCount(elements, t, 0, c);
    if c == 0 {
      QuotientOfBounds(n + t - 1, t, 0);
    } else {
      BatchesFromCount(elements, t, 0, c - 1);
      assert (c - 1) * t == c * t - t;
      QuotientOfBounds(n + t - 1, t, c);
    }
  }

  /** Every batch is non-empty and at most `t` long. */
  lemma BatchBounds<T>(elements: seq<T>, t: nat)
    requires t > 0
    ensures forall k :: 0 <= k < |BatchesFrom(elements, t, 0)| ==> 0 < |BatchesFrom(elements, t, 0)[k]| <= t
  {
    var b := BatchesFrom(elements, t, 0);
    forall k | 0 <= k < |b| ensures 0 < |b[k]| <= t {
      BatchesFromAt(elements, t, 0, k);
    }
  }

  /** Every batch but the last is exactly `t` long. */
  lemma BatchesAreFull<T>(elements: seq<T>, t: nat)
    requires t > 0
    ensures forall k :: 0 <= k < |BatchesFrom(elements, t, 0)| - 1 ==> |BatchesFrom(elements, t, 0)[k]| == t
  {
    var b := BatchesFrom(elements, t, 0);
    forall k | 0 <= k < |b| - 1 ensures |b[k]| == t {
      BatchesFromAt(elements, t, 0, k);
      BatchesFromCount(elements, t, 0, k + 1);
      assert (k + 1) * t == k * t + t;
    }
  }

  /** A positive size cuts the list into `ceil(n / t)` batches, none for an
      empty list; batch `k` is `elements[k*t : k*t + t]`; every batch is
      non-empty and at most `t` long, all but the last exactly `t` long; and
      the batches put back together give the list. */
  lemma SplitIntoBatchesShape<T>(elements: seq<T>, tailleMax: int)
    requires tailleMax > 0
    ensures SplitIntoBatches(elements, tailleMax).Ok?
    ensures |SplitIntoBatches(elements, tailleMax).value| == (|elements| + tailleMax - 1) / tailleMax
    ensures |elements| == 0 ==> SplitIntoBatches(elements, tailleMax).value == []
    ensures forall k :: 0 <= k < |SplitIntoBatches(elements, tailleMax).value| ==>
      k * tailleMax < |elements|
      && SplitIntoBatches(elements, tailleMax).value[k] == elements[k * tailleMax..Min(k * tailleMax + tailleMax, |elements|)]
    ensures forall k :: 0 <= k < |SplitIntoBatches(elements, tailleMax).value| ==>
      0 < |SplitIntoBatches(elements, tailleMax).value[k]| <= tailleMax
    ensures forall k :: 0 <= k < |SplitIntoBatches(elements, tailleMax).value| - 1 ==>
      |SplitIntoBatches(elements, tailleMax).value[k]| == tailleMax
    ensures Concat(SplitIntoBatches(elements, tailleMax).value) == elements
  {
    var t := tailleMax;
    var b := BatchesFrom(elements, t, 0);
    BatchCount(elements, t);
    BatchBounds(elements, t);
    BatchesAreFull(elements, t);
    BatchesFromConcat(elements, t, 0);
    assert elements[0..] == elements;
    forall k | 0 <= k < |b| ensures k * t < |elements| && b[k] == elements[k * t..Min(k * t + t, |elements|)] {
      BatchesFromAt(elements, t, 0, k);
    }
  }
}
