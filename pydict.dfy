/** Python dictionary semantics needed by the model. */
module PyDict {

  /** Index `i` holds the last pair whose key is `pairs[i].0`. */
  predicate IsLastKey<K(==), V>(pairs: seq<(K, V)>, i: nat)
    requires i < |pairs|
  {
    forall j :: i < j < |pairs| ==> pairs[j].0 != pairs[i].0
  }

  /**
   * `{k: v for (k, v) in pairs}`: pairs are inserted in order, so a repeated key keeps the
   * value of its last pair.
   */
  function FromPairs<K(==), V>(pairs: seq<(K, V)>): (m: map<K, V>)
    ensures forall i :: 0 <= i < |pairs| ==> pairs[i].0 in m
    ensures forall k :: k in m ==> exists i :: 0 <= i < |pairs| && pairs[i] == (k, m[k])
  {
    if pairs == [] then map[]
    else FromPairs(pairs[..|pairs| - 1])[pairs[|pairs| - 1].0 := pairs[|pairs| - 1].1]
  }

  /** The value stored under a key is the one of its last pair. */
  lemma {:induction false} FromPairsLastWins<K, V>(pairs: seq<(K, V)>, i: nat)
    requires i < |pairs| && IsLastKey(pairs, i)
    ensures FromPairs(pairs)[pairs[i].0] == pairs[i].1
  {
    var n := |pairs| - 1;
    var init := pairs[..n];
    assert FromPairs(pairs) == FromPairs(init)[pairs[n].0 := pairs[n].1];
    if i < n {
      assert init[i] == pairs[i];
      assert pairs[n].0 != pairs[i].0;
      assert IsLastKey(init, i) by {
        forall j | i < j < |init| ensures init[j].0 != init[i].0 {
          assert init[j] == pairs[j];
        }
      }
      FromPairsLastWins(init, i);
    }
  }

  /** `d.get(k, default)` */
  function GetOr<K(==), V>(m: map<K, V>, k: K, default: V): V {
    if k in m then m[k] else default
  }
}
