/** RoProperties<T, T2>: a read-only view of a dictionary. Queries delegate, mutators throw. */
module ReadOnly {
  import opened Common

  /** A mutable dictionary, as handed out by `ExtractDictionary`. */
  class Dictionary<K(==), V> {
    var entries: map<K, V>

    constructor(entries: map<K, V>)
      ensures this.entries == entries
    {
      this.entries := entries;
    }

    /** The indexer setter of a writable dictionary. */
    method Put(key: K, value: V)
      modifies this
      ensures entries == old(entries)[key := value]
    {
      entries := entries[key := value];
    }
  }

  datatype RoProperties<K(==), V(==)> = RoProperties(dict: map<K, V>)
  {
    /** `RoProperties(IDictionary data)`: null data throws ArgumentNullException. */
    static function Create(data: Option<map<K, V>>): (r: Result<RoProperties<K, V>, Error>)
      ensures r.Failure? <==> data.None?
      ensures r.Failure? ==> r.error == ArgumentNull
      ensures r.Success? ==> r.value.dict == data.value
    {
      if data.None? then Failure(ArgumentNull) else Success(RoProperties(data.value))
    }

    /** The indexer getter: the wrapped dictionary's value, KeyNotFoundException for a missing key. */
    function Get(key: K): (r: Result<V, Error>)
      ensures r.Success? <==> key in dict
      ensures r.Success? ==> r.value == dict[key]
      ensures r.Failure? ==> r.error == KeyNotFound
    {
      if key in dict then Success(dict[key]) else Failure(KeyNotFound)
    }

    /** The indexer setter: always NotSupportedException. */
    function Set(key: K, value: V): (r: Outcome<Error>)
      ensures r == Fail(NotSupported)
    {
      Fail(NotSupported)
    }

    function Keys(): (r: set<K>)
      ensures r == dict.Keys
    {
      dict.Keys
    }

    /** `Values`: one entry per key, so a value held by several keys occurs that many times. */
    ghost function Values(): (r: multiset<V>)
      ensures |r| == Count()
    {
      MapValues(dict)
    }

    function Count(): (r: nat)
      ensures r == |Keys()|
    {
      |dict|
    }

    function IsReadOnly(): (r: bool)
      ensures r
    {
      true
    }

    function ContainsKey(key: K): (r: bool)
      ensures r <==> Get(key).Success?
    {
      key in dict
    }

    /** `TryGetValue`: the found value, or None when the key is missing. */
    function TryGetValue(key: K): (r: Option<V>)
      ensures r.Some? <==> ContainsKey(key)
      ensures r.Some? ==> Get(key) == Success(r.value)
    {
      if key in dict then Some(dict[key]) else None
    }

    /** `Add(key, value)`: NotSupportedException. */
    function Add(key: K, value: V): (r: Outcome<Error>)
      ensures r == Fail(NotSupported)
    {
      Fail(NotSupported)
    }

    /** `Add(KeyValuePair)`: NotSupportedException. */
    function AddPair(key: K, value: V): (r: Outcome<Error>)
      ensures r == Fail(NotSupported)
    {
      Fail(NotSupported)
    }

    /** `Clear()`: NotSupportedException. */
    function Clear(): (r: Outcome<Error>)
      ensures r == Fail(NotSupported)
    {
      Fail(NotSupported)
    }

    /** `Contains(KeyValuePair)`: NotSupportedException, not a lookup. */
    function ContainsPair(key: K, value: V): (r: Result<bool, Error>)
      ensures r == Failure(NotSupported)
    {
      Failure(NotSupported)
    }

    /** `Remove(key)`: NotSupportedException. */
    function Remove(key: K): (r: Result<bool, Error>)
      ensures r == Failure(NotSupported)
    {
      Failure(NotSupported)
    }

    /** `Remove(KeyValuePair)`: NotSupportedException. */
    function RemovePair(key: K, value: V): (r: Result<bool, Error>)
      ensures r == Failure(NotSupported)
    {
      Failure(NotSupported)
    }

    /** `ExtractDictionary`: a new dictionary with the same entries. */
    method ExtractDictionary() returns (d: Dictionary<K, V>)
      ensures fresh(d)
      ensures d.entries == dict
    {
      d := new Dictionary(dict);
    }
  }

  /** The values of `m`, one per key. */
  ghost function MapValues<K, V>(m: map<K, V>): (r: multiset<V>)
    ensures |r| == |m|
    decreases |m|
  {
    if m == map[] then multiset{}
    else
      var k :| k in m;
      assert |m - {k}| == |m| - 1 by {
        assert (m - {k}).Keys == m.Keys - {k};
      }
      MapValues(m - {k}) + multiset{m[k]}
  }

  /** Each value occurs in `MapValues(m)` as often as there are keys mapped to it. */
  lemma {:induction false} MapValuesCount<K, V>(m: map<K, V>, v: V)
    ensures MapValues(m)[v] == |set k | k in m && m[k] == v|
    decreases |m|
  {
    if m != map[] {
      var k :| k in m && MapValues(m) == MapValues(m - {k}) + multiset{m[k]};
      MapValuesCount(m - {k}, v);
      var rest := set j | j in m - {k} && (m - {k})[j] == v;
      if m[k] == v {
        assert (set j | j in m && m[j] == v) == rest + {k};
      } else {
        assert (set j | j in m && m[j] == v) == rest;
      }
    }
  }

  /** A copy handed out by `ExtractDictionary` can be changed while the view keeps its entries. */
  method ExtractedCopyIsIndependent<K(==), V(==)>(view: RoProperties<K, V>, key: K, value: V)
    returns (copy: Dictionary<K, V>)
    ensures fresh(copy)
    ensures copy.entries == view.dict[key := value]
  {
    copy := view.ExtractDictionary();
    copy.Put(key, value);
  }

  /** `Values` keeps repeated values: each one as often as there are keys mapped to it. */
  lemma ValuesCountPerValue<K, V>(view: RoProperties<K, V>, v: V)
    ensures view.Values()[v] == |set k | k in view.dict && view.dict[k] == v|
  {
    MapValuesCount(view.dict, v);
  }

  /** Every query of the view agrees with the wrapped dictionary, and every mutator is refused. */
  lemma ViewAgreesWithDictionary<K, V>(data: map<K, V>, key: K, value: V)
    ensures RoProperties<K, V>.Create(Some(data)).Success?
    ensures var v := RoProperties<K, V>.Create(Some(data)).value;
      && v.Count() == |data| && |v.Values()| == |data|
      && v.Keys() == data.Keys
      && (v.ContainsKey(key) <==> key in data)
      && (key in data ==> v.Get(key) == Success(data[key]) && v.TryGetValue(key) == Some(data[key]))
      && v.Set(key, value).Fail? && v.Add(key, value).Fail? && v.AddPair(key, value).Fail?
      && v.Clear().Fail? && v.Remove(key).Failure? && v.RemovePair(key, value).Failure?
  {
  }
}
