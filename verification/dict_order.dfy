/**
 * Python dictionaries remember insertion order: assigning to an existing
 * key keeps its slot, a new key goes last, deleting a key closes the gap.
 * A dictionary is modelled as a map plus the sequence of its keys in that
 * order.
 */
module DictOrder {

  predicate Distinct(keys: seq<string>)
  {
    forall i, j :: 0 <= i < j < |keys| ==> keys[i] != keys[j]
  }

  /** The key order after `d[k] = v`. */
  function Put(keys: seq<string>, k: string): (r: seq<string>)
    ensures Distinct(keys) ==> Distinct(r)
    ensures forall x :: x in r <==> x in keys || x == k
    ensures k in keys ==> r == keys
    ensures k !in keys ==> r == keys + [k]
  {
    if k in keys then keys else keys + [k]
  }

  /** The key order after `del d[k]`: every other key keeps its place. */
  function Remove(keys: seq<string>, k: string): (r: seq<string>)
    ensures Distinct(keys) ==> Distinct(r)
    ensures forall x :: x in r <==> x in keys && x != k
    ensures |r| <= |keys|
  {
    FilterMembers(keys, {k});
    Filter(keys, {k})
  }

  /** With distinct keys, removing a present key shortens the order by exactly one. */
  lemma {:induction false} RemovePresent(keys: seq<string>, k: string)
    requires Distinct(keys) && k in keys
    ensures |Remove(keys, k)| == |keys| - 1
    decreases |keys|
  {
    var n := |keys| - 1;
    var init := keys[..n];
    assert init + [keys[n]] == keys;
    DistinctInit(keys);
    DistinctNotBefore(keys, n);
    if keys[n] == k {
      FilterAbsent(init, {k});
    } else {
      assert k in init;
      RemovePresent(init, k);
    }
  }

  /** Removing an absent key changes nothing. */
  lemma RemoveAbsent(keys: seq<string>, k: string)
    requires k !in keys
    ensures Remove(keys, k) == keys
  {
    FilterAbsent(keys, {k});
  }

  /** With distinct keys, a key's earlier positions do not hold it. */
  lemma DistinctNotBefore(keys: seq<string>, i: nat)
    requires Distinct(keys) && i < |keys|
    ensures keys[i] !in keys[..i] && keys[i] !in keys[i + 1..]
  {
  }

  /** A dictionary with distinct keys `keys` whose key set is `s` has exactly `|keys|` entries. */
  lemma {:induction false} DistinctCount(keys: seq<string>, s: set<string>)
    requires Distinct(keys) && forall k :: k in keys <==> k in s
    ensures |s| == |keys|
    decreases |keys|
  {
    if |keys| > 0 {
      var n := |keys| - 1;
      var last := keys[n];
      assert keys[..n] + [last] == keys;
      DistinctNotBefore(keys, n);
      DistinctInit(keys);
      DistinctCount(keys[..n], s - {last});
    }
  }

  /** Dropping the last key of a distinct order leaves a distinct order. */
  lemma DistinctInit(keys: seq<string>)
    requires Distinct(keys) && |keys| > 0
    ensures Distinct(keys[..|keys| - 1])
  {
    var init := keys[..|keys| - 1];
    forall i, j | 0 <= i < j < |init|
      ensures init[i] != init[j]
    {
      assert init[i] == keys[i] && init[j] == keys[j];
    }
  }

  /** The key order after deleting every key of `drop`, one `del` at a time. */
  function Filter(keys: seq<string>, drop: set<string>): (r: seq<string>)
    ensures |r| <= |keys|
    decreases |keys|
  {
    if |keys| == 0 then []
    else
      var n := |keys| - 1;
      Filter(keys[..n], drop) + (if keys[n] in drop then [] else [keys[n]])
  }

  lemma FilterSnoc(keys: seq<string>, k: string, drop: set<string>)
    ensures Filter(keys + [k], drop) == Filter(keys, drop) + (if k in drop then [] else [k])
  {
    assert (keys + [k])[..|keys|] == keys;
  }

  /** Filtering keeps exactly the keys outside `drop`, and distinct keys stay distinct. */
  lemma {:induction false} FilterMembers(keys: seq<string>, drop: set<string>)
    ensures forall x :: x in Filter(keys, drop) <==> x in keys && x !in drop
    ensures Distinct(keys) ==> Distinct(Filter(keys, drop))
    decreases |keys|
  {
    if |keys| > 0 {
      var n := |keys| - 1;
      var init := keys[..n];
      assert init + [keys[n]] == keys;
      FilterMembers(init, drop);
      forall x
        ensures x in keys <==> x in init || x == keys[n]
      {
        if x in keys {
          var j :| 0 <= j < |keys| && keys[j] == x;
          if j < n {
            assert init[j] == x;
          }
        }
      }
      if Distinct(keys) {
        DistinctNotBefore(keys, n);
        DistinctInit(keys);
      }
    }
  }

  /** Filtering out keys the order does not hold changes nothing. */
  lemma {:induction false} FilterAbsent(keys: seq<string>, drop: set<string>)
    requires forall x :: x in keys ==> x !in drop
    ensures Filter(keys, drop) == keys
    decreases |keys|
  {
    if |keys| > 0 {
      var n := |keys| - 1;
      assert keys[..n] + [keys[n]] == keys;
      FilterAbsent(keys[..n], drop);
    }
  }

  /** Filtering twice is filtering once by both sets. */
  lemma {:induction false} FilterFilter(keys: seq<string>, drop: set<string>, more: set<string>)
    ensures Filter(Filter(keys, drop), more) == Filter(keys, drop + more)
    decreases |keys|
  {
    if |keys| > 0 {
      var n := |keys| - 1;
      var last := keys[n];
      FilterFilter(keys[..n], drop, more);
      if last in drop {
        assert Filter(keys, drop) == Filter(keys[..n], drop);
        assert Filter(keys, drop + more) == Filter(keys[..n], drop + more);
      } else {
        assert Filter(keys, drop) == Filter(keys[..n], drop) + [last];
        FilterSnoc(Filter(keys[..n], drop), last, more);
      }
    }
  }
}
