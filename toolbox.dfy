/**
 * toolbox.py: the two helpers with behaviour of their own, the multi-value
 * dictionary insert and the file name offered for a CSV download.
 */
module Toolbox {
  import opened Text

  /** A dictionary value: a Python list, or anything else. */
  datatype Value<T> = Item(item: T) | List(elems: seq<Value<T>>)

  /** The dictionary after `add_dict_value(d, key, value)`. */
  function AddValue<K, T>(m: map<K, Value<T>>, key: K, value: Value<T>): (r: map<K, Value<T>>)
    ensures r.Keys == m.Keys + {key}
    ensures |r.Keys| == if key in m then |m.Keys| else |m.Keys| + 1
    ensures key !in m ==> r[key] == value
    ensures key in m && m[key].List? ==> r[key] == List(m[key].elems + [value])
    ensures key in m && !m[key].List? ==> r[key] == List([m[key], value])
    ensures forall k :: k in m && k != key ==> r[k] == m[k]
  {
    if key !in m then m[key := value]
    else if m[key].List? then m[key := List(m[key].elems + [value])]
    else m[key := List([m[key], value])]
  }

  /** A Python dict that callers share and `add_dict_value` mutates in place. */
  class Dict<K(==), T> {
    var entries: map<K, Value<T>>

    constructor (initial: map<K, Value<T>>)
      ensures entries == initial
    {
      entries := initial;
    }
  }

  /**
   * `add_dict_value`: an absent key maps to `value`; a key holding a list gets `value`
   * appended; a key holding anything else now holds `[old, value]`.
   */
  method AddDictValue<K(==), T>(d: Dict<K, T>, key: K, value: Value<T>)
    modifies d
    ensures d.entries == AddValue(old(d.entries), key, value)
  {
    if key !in d.entries {
      d.entries := d.entries[key := value];
    } else if d.entries[key].List? {
      d.entries := d.entries[key := List(d.entries[key].elems + [value])];
    } else {
      d.entries := d.entries[key := List([d.entries[key], value])];
    }
  }

  /** The dictionary after adding `values` under `key`, one call at a time. */
  function AddValues<K, T>(m: map<K, Value<T>>, key: K, values: seq<Value<T>>): map<K, Value<T>>
    decreases |values|
  {
    if values == [] then m else AddValues(AddValue(m, key, values[0]), key, values[1..])
  }

  /** Adding to a key that holds a list appends, in order, and leaves every other key alone. */
  lemma {:induction false} AddValuesToList<K, T>(m: map<K, Value<T>>, key: K, values: seq<Value<T>>)
    requires key in m && m[key].List?
    ensures var r := AddValues(m, key, values);
            && r.Keys == m.Keys
            && r[key] == List(m[key].elems + values)
            && forall k :: k in m && k != key ==> r[k] == m[k]
  {
    if values != [] {
      var m' := AddValue(m, key, values[0]);
      AddValuesToList(m', key, values[1..]);
      assert m[key].elems + [values[0]] + values[1..] == m[key].elems + values;
    }
  }

  /**
   * Repeated adds to a fresh key, the first of them not a list, leave the list of all
   * values in insertion order once at least two have been added.
   */
  lemma RepeatedAdds<K, T>(m: map<K, Value<T>>, key: K, values: seq<Value<T>>)
    requires key !in m && |values| >= 2 && !values[0].List?
    ensures AddValues(m, key, values).Keys == m.Keys + {key}
    ensures AddValues(m, key, values)[key] == List(values)
    ensures forall k :: k in m ==> AddValues(m, key, values)[k] == m[k]
  {
    var m1 := AddValue(m, key, values[0]);
    var m2 := AddValue(m1, key, values[1]);
    assert AddValues(m, key, values) == AddValues(m2, key, values[2..]) by {
      assert values[1..][1..] == values[2..];
    }
    AddValuesToList(m2, key, values[2..]);
    assert [values[0], values[1]] + values[2..] == values;
  }

  /** The `file_name` of `download_df`: "nso_" + the lowercased name + ".csv", spaces replaced by "_". */
  function DownloadFileName(name: string): (r: string)
    ensures |r| == |name| + 8
    ensures r[..4] == "nso_" && r[|r| - 4..] == ".csv"
    ensures forall i :: 0 <= i < |name| ==> r[4 + i] == if name[i] == ' ' then '_' else LowerChar(name[i])
    ensures forall i :: 0 <= i < |r| ==> r[i] != ' '
  {
    ReplaceChar("nso_" + Lower(name) + ".csv", ' ', '_')
  }
}
