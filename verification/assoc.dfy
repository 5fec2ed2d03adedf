/**
 * Filling an object key by key (`o[k] = v` for each pair in turn, starting
 * from `{}`): a key assigned twice keeps the later value. prop's title and
 * page maps and REST's lower-cased header record are built this way.
 */
module Assoc {

  function FromPairs<K(==), V>(pairs: seq<(K, V)>): map<K, V>
  {
    if pairs == [] then map[]
    else FromPairs(pairs[..|pairs| - 1])[pairs[|pairs| - 1].0 := pairs[|pairs| - 1].1]
  }

  /** The keys are exactly the keys of the pairs. */
  lemma {:induction false} FromPairsKeys<K, V>(pairs: seq<(K, V)>)
    ensures forall k :: k in FromPairs(pairs) ==> exists i :: 0 <= i < |pairs| && pairs[i].0 == k
    ensures forall i :: 0 <= i < |pairs| ==> pairs[i].0 in FromPairs(pairs)
    decreases |pairs|
  {
    if pairs != [] {
      var init := pairs[..|pairs| - 1];
      FromPairsKeys(init);
      forall k | k in FromPairs(pairs) ensures exists i :: 0 <= i < |pairs| && pairs[i].0 == k {
        if k != pairs[|pairs| - 1].0 {
          assert k in FromPairs(init);
          var i :| 0 <= i < |init| && init[i].0 == k;
          assert pairs[i] == init[i];
        }
      }
      forall i | 0 <= i < |init| ensures pairs[i].0 in FromPairs(pairs) {
        assert init[i] == pairs[i];
      }
    }
  }

  /** A key holds the value of its last pair. */
  lemma {:induction false} FromPairsLastWins<K, V>(pairs: seq<(K, V)>, i: nat)
    requires i < |pairs|
    requires forall j :: i < j < |pairs| ==> pairs[j].0 != pairs[i].0
    ensures pairs[i].0 in FromPairs(pairs) && FromPairs(pairs)[pairs[i].0] == pairs[i].1
    decreases |pairs|
  {
    if i < |pairs| - 1 {
      var init := pairs[..|pairs| - 1];
      assert init[i] == pairs[i];
      FromPairsLastWins(init, i);
    }
  }

  /** Pairs with distinct keys lose nothing: each pair's value is found under its key. */
  lemma FromPairsDistinct<K, V>(pairs: seq<(K, V)>)
    requires forall i, j :: 0 <= i < j < |pairs| ==> pairs[i].0 != pairs[j].0
    ensures forall i :: 0 <= i < |pairs| ==> pairs[i].0 in FromPairs(pairs) && FromPairs(pairs)[pairs[i].0] == pairs[i].1
  {
    forall i | 0 <= i < |pairs|
      ensures pairs[i].0 in FromPairs(pairs) && FromPairs(pairs)[pairs[i].0] == pairs[i].1
    {
      FromPairsLastWins(pairs, i);
    }
  }

  /** One more assignment, as the loops that fill such objects do it. */
  lemma FromPairsSnoc<K, V>(pairs: seq<(K, V)>, i: nat)
    requires i < |pairs|
    ensures FromPairs(pairs[..i + 1]) == FromPairs(pairs[..i])[pairs[i].0 := pairs[i].1]
  {
    assert pairs[..i + 1][..i] == pairs[..i];
  }
}
