/** Tallies keyed by a product name or a month: `Map.merge(key, quantity, Integer::sum)`
    and the sum of a tally's values. */
module Tallies {

  /** `m.merge(key, amount, Integer::sum)`: an absent key is put with `amount`, a
      present one gets `amount` added; every other entry is left alone. */
  function Merge<K>(m: map<K, int>, key: K, amount: int): (r: map<K, int>)
    ensures r.Keys == m.Keys + {key}
    ensures r[key] == (if key in m then m[key] else 0) + amount
    ensures forall k :: k in m && k != key ==> r[k] == m[k]
  {
    if key in m then m[key := m[key] + amount] else m[key := amount]
  }

  /** The key of a non-empty tally that `SumValues` takes out first. */
  ghost function Pick<K>(keys: set<K>): (key: K)
    requires keys != {}
    ensures key in keys
  {
    var k :| k in keys; k
  }

  /** The sum of all values of a tally, whatever the order of its keys. */
  ghost function SumValues<K>(m: map<K, int>): int
    decreases |m|
  {
    if m == map[] then 0
    else
      assert m.Keys != {} by { var k :| k in m; }
      var k := Pick(m.Keys);
      RemoveShrinks(m, k);
      m[k] + SumValues(m - {k})
  }

  /** Any key can be taken out first: the sum does not depend on the key that
      `SumValues` happens to pick. */
  lemma {:induction false} SumValuesRemove<K>(m: map<K, int>, key: K)
    requires key in m
    ensures SumValues(m) == m[key] + SumValues(m - {key})
    decreases |m|
  {
    var k := Pick(m.Keys);
    assert SumValues(m) == m[k] + SumValues(m - {k});
    if k != key {
      var mk, mkey := m - {k}, m - {key};
      RemoveShrinks(m, k);
      RemoveShrinks(m, key);
      SumValuesRemove(mk, key);
      assert mk - {key} == mkey - {k};
      SumValuesRemove(mkey, k);
    }
  }

  lemma RemoveShrinks<K>(m: map<K, int>, key: K)
    requires key in m
    ensures |m - {key}| == |m| - 1
  {
    assert m.Keys == (m - {key}).Keys + {key};
  }

  /** Merging `amount` into a tally adds exactly `amount` to its sum. */
  lemma {:induction false} SumValuesMerge<K>(m: map<K, int>, key: K, amount: int)
    ensures SumValues(Merge(m, key, amount)) == SumValues(m) + amount
  {
    var r := Merge(m, key, amount);
    SumValuesRemove(r, key);
    if key in m {
      SumValuesRemove(m, key);
      assert r - {key} == m - {key};
    } else {
      assert r - {key} == m;
    }
  }
}
