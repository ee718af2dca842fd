/** The per-station dictionaries the strategies keep (`self.models`,
    `self.scalers`, the model files on disk): what a loop over the stations
    that writes one entry per station leaves in them. */
module StationMaps {
  import opened Sequences
  import opened Frames

  /** Key `s` of `m` is as it was in `m0`. */
  ghost predicate Unchanged<V>(m: map<Station, V>, m0: map<Station, V>, s: Station) {
    (s in m <==> s in m0) && (s in m ==> m[s] == m0[s])
  }

  /** `m` after `m[keys[0]] = vals[0]; ...; m[keys[n-1]] = vals[n-1]`. */
  function Overlay<V>(m: map<Station, V>, keys: seq<Station>, vals: seq<V>): (r: map<Station, V>)
    requires |keys| == |vals|
    ensures forall s :: s in r <==> s in m || s in keys
    decreases |keys|
  {
    if |keys| == 0 then m
    else Overlay(m, keys[..|keys| - 1], vals[..|vals| - 1])[keys[|keys| - 1] := vals[|vals| - 1]]
  }

  /** With distinct keys, each key ends up holding its own value. */
  lemma {:induction false} OverlayAt<V>(m: map<Station, V>, keys: seq<Station>, vals: seq<V>, k: nat)
    requires |keys| == |vals| && Distinct(keys) && k < |keys|
    ensures keys[k] in Overlay(m, keys, vals) && Overlay(m, keys, vals)[keys[k]] == vals[k]
    decreases |keys|
  {
    var n := |keys| - 1;
    if k < n {
      assert keys[..n][k] == keys[k] && vals[..n][k] == vals[k];
      assert keys[k] != keys[n];
      OverlayAt(m, keys[..n], vals[..n], k);
    }
  }

  /** A key that is not written keeps its entry (or its absence). */
  lemma {:induction false} OverlayElsewhere<V>(m: map<Station, V>, keys: seq<Station>, vals: seq<V>, s: Station)
    requires |keys| == |vals| && s !in keys
    ensures Unchanged(Overlay(m, keys, vals), m, s)
    decreases |keys|
  {
    if |keys| > 0 {
      var n := |keys| - 1;
      assert s != keys[n];
      assert s !in keys[..n] by {
        forall i | 0 <= i < n ensures keys[..n][i] != s {
          assert keys[..n][i] == keys[i];
        }
      }
      OverlayElsewhere(m, keys[..n], vals[..n], s);
    }
  }

  /** One more pass of the loop writes one more entry. */
  lemma OverlaySnoc<V>(m: map<Station, V>, keys: seq<Station>, vals: seq<V>, j: nat)
    requires |keys| == |vals| && j < |keys|
    ensures Overlay(m, keys[..j + 1], vals[..j + 1]) == Overlay(m, keys[..j], vals[..j])[keys[j] := vals[j]]
  {
    assert keys[..j + 1][..j] == keys[..j] && vals[..j + 1][..j] == vals[..j];
  }

  /** Writing back every key's own value changes nothing. */
  lemma {:induction false} OverlayOfOwn<V>(m: map<Station, V>, keys: seq<Station>, vals: seq<V>)
    requires |keys| == |vals|
    requires forall k :: 0 <= k < |keys| ==> keys[k] in m && vals[k] == m[keys[k]]
    ensures Overlay(m, keys, vals) == m
    decreases |keys|
  {
    if |keys| > 0 {
      var n := |keys| - 1;
      assert forall k :: 0 <= k < n ==> keys[..n][k] == keys[k] && vals[..n][k] == vals[k];
      OverlayOfOwn(m, keys[..n], vals[..n]);
      UpdateWithOwn(m, keys[n]);
    }
  }

  lemma UpdateWithOwn<V>(m: map<Station, V>, s: Station)
    requires s in m
    ensures m[s := m[s]] == m
  {
  }

  lemma UpdateAgrees<V>(m: map<Station, V>, s: Station, v: V, w: V)
    requires v == w
    ensures m[s := v] == m[s := w]
  {
  }
}
