/** Sizes of sets and maps, and the option type, as the other modules use them. */
module Collections {

  datatype Option<+T> = None | Some(value: T)

  lemma SubsetSize<T>(a: set<T>, b: set<T>)
    requires a <= b
    ensures |a| <= |b| && (|a| == |b| ==> a == b)
  {
    assert b == a + (b - a);
  }

  lemma SizesAdd<T>(a: set<T>, b: set<T>)
    requires a !! b
    ensures |a + b| == |a| + |b|
  {
  }

  lemma FewerKeys<K, V>(a: map<K, V>, b: map<K, V>)
    requires a.Keys <= b.Keys
    ensures |a| <= |b|
  {
    SubsetSize(a.Keys, b.Keys);
    assert |a| == |a.Keys| && |b| == |b.Keys|;
  }

  lemma OneMore<K, V>(m: map<K, V>, key: K, value: V)
    ensures |m[key := value]| <= |m| + 1
  {
    var more := m[key := value];
    assert more.Keys == m.Keys + {key};
    assert |more| == |more.Keys| && |m| == |m.Keys|;
  }

  lemma RemoveSize<K, V>(m: map<K, V>, keys: set<K>)
    requires keys <= m.Keys
    ensures |m - keys| == |m| - |keys|
  {
    assert m.Keys == (m - keys).Keys + keys;
    SizesAdd((m - keys).Keys, keys);
  }

  lemma Associate<T>(a: seq<T>, b: seq<T>, c: seq<T>)
    ensures a + (b + c) == a + b + c
  {
  }
}
