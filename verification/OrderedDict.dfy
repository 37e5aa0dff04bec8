/** Python's insertion-ordered dict: iteration order is the order in which keys were first added. */
module OrderedDict {

  ghost predicate Distinct<K>(keys: seq<K>) {
    forall i, j :: 0 <= i < j < |keys| ==> keys[i] != keys[j]
  }

  datatype Dict<K(==), V> = Dict(keys: seq<K>, data: map<K, V>) {

    ghost predicate Valid() {
      && Distinct(keys)
      && (forall k | k in keys :: k in data)
      && (forall k | k in data :: k in keys)
    }

    function Put(k: K, v: V): (d: Dict<K, V>)
      ensures Valid() ==> d.Valid()
    {
      Dict(if k in data then keys else keys + [k], data[k := v])
    }

    /** Drop a key, if it is there: the other keys keep their order. */
    function Remove(k: K): (d: Dict<K, V>)
      ensures Valid() ==> d.Valid()
    {
      WithoutMembers(keys, k);
      Dict(Without(keys, k), data - {k})
    }
  }

  function Empty<K(==), V>(): Dict<K, V> { Dict([], map[]) }

  function Without<K(==)>(keys: seq<K>, k: K): seq<K> {
    if |keys| == 0 then []
    else
      var rest := Without(keys[..|keys| - 1], k);
      if keys[|keys| - 1] == k then rest else rest + [keys[|keys| - 1]]
  }

  lemma {:induction false} WithoutMembers<K>(keys: seq<K>, k: K)
    ensures forall x | x in keys && x != k :: x in Without(keys, k)
    ensures forall x | x in Without(keys, k) :: x in keys && x != k
    ensures Distinct(keys) ==> Distinct(Without(keys, k))
  {
    if |keys| > 0 {
      var init, last := keys[..|keys| - 1], keys[|keys| - 1];
      WithoutMembers(init, k);
      assert keys == init + [last];
      assert Distinct(keys) ==> last !in init;
    }
  }

  /** The weights of the values of some keys, added up. */
  function SumOf<K, V>(keys: seq<K>, data: map<K, V>, weight: V -> real): real
    requires forall k | k in keys :: k in data
  {
    if |keys| == 0 then 0.0
    else SumOf(keys[..|keys| - 1], data, weight) + weight(data[keys[|keys| - 1]])
  }

  lemma {:induction false} SumOfUpdate<K, V>(keys: seq<K>, data: map<K, V>, weight: V -> real, k: K, v: V)
    requires Distinct(keys) && forall x | x in keys :: x in data
    ensures SumOf(keys, data[k := v], weight)
         == SumOf(keys, data, weight) + if k in keys then weight(v) - weight(data[k]) else 0.0
  {
    if |keys| > 0 {
      var init, last := keys[..|keys| - 1], keys[|keys| - 1];
      assert keys == init + [last];
      SumOfUpdate(init, data, weight, k, v);
    }
  }

  ghost function Total<K, V>(d: Dict<K, V>, weight: V -> real): real
    requires d.Valid()
  {
    SumOf(d.keys, d.data, weight)
  }

  lemma TotalPut<K, V>(d: Dict<K, V>, k: K, v: V, weight: V -> real)
    requires d.Valid()
    ensures Total(d.Put(k, v), weight) == Total(d, weight) + weight(v) - if k in d.data then weight(d.data[k]) else 0.0
  {
    SumOfUpdate(d.keys, d.data, weight, k, v);
    if k !in d.data {
      assert (d.keys + [k])[..|d.keys|] == d.keys;
    }
  }

  /** The values worth keeping, in the order of their keys. */
  function Select<K, V>(keys: seq<K>, data: map<K, V>, keep: V -> bool): (r: seq<V>)
    requires forall k | k in keys :: k in data
    ensures forall v | v in r :: keep(v)
  {
    if |keys| == 0 then []
    else
      var before, v := Select(keys[..|keys| - 1], data, keep), data[keys[|keys| - 1]];
      if keep(v) then before + [v] else before
  }

  lemma {:induction false} SelectUpdate<K, V>(keys: seq<K>, data: map<K, V>, keep: V -> bool, k: K, v: V)
    requires Distinct(keys) && forall x | x in keys :: x in data
    ensures k !in keys ==> Select(keys, data[k := v], keep) == Select(keys, data, keep)
    ensures k in keys ==>
              |Select(keys, data[k := v], keep)| + (if keep(data[k]) then 1 else 0)
              == |Select(keys, data, keep)| + (if keep(v) then 1 else 0)
  {
    if |keys| > 0 {
      var init, last := keys[..|keys| - 1], keys[|keys| - 1];
      assert keys == init + [last];
      SelectUpdate(init, data, keep, k, v);
    }
  }

  ghost function Count<K, V>(d: Dict<K, V>, keep: V -> bool): nat
    requires d.Valid()
  {
    |Select(d.keys, d.data, keep)|
  }

  lemma CountPut<K, V>(d: Dict<K, V>, k: K, v: V, keep: V -> bool)
    requires d.Valid()
    ensures Count(d.Put(k, v), keep) + (if k in d.data && keep(d.data[k]) then 1 else 0)
         == Count(d, keep) + (if keep(v) then 1 else 0)
  {
    SelectUpdate(d.keys, d.data, keep, k, v);
    if k !in d.data {
      assert (d.keys + [k])[..|d.keys|] == d.keys;
    }
  }

  lemma {:induction false} SelectMembers<K, V>(keys: seq<K>, data: map<K, V>, keep: V -> bool)
    requires forall k | k in keys :: k in data
    ensures forall k | k in keys && keep(data[k]) :: data[k] in Select(keys, data, keep)
    ensures forall v | v in Select(keys, data, keep) :: exists k :: k in keys && data[k] == v
  {
    if |keys| > 0 {
      var init, last := keys[..|keys| - 1], keys[|keys| - 1];
      assert keys == init + [last];
      SelectMembers(init, data, keep);
    }
  }
}
