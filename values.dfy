/**
 * PHP values as the WordPress option store keeps them, and the few
 * string operations the bridge performs on option names.
 */
module Values {

  datatype Option<+T> = None | Some(value: T) {
    function GetOr(default: T): T {
      match this
      case Some(v) => v
      case None => default
    }
  }

  /** A stored PHP value: a string, or an array keyed by strings. */
  datatype Value = Str(s: string) | Arr(entries: map<string, Value>)

  /** A settings array: field id to value. */
  type Record = map<string, Value>

  /** The option store: option name to stored array. */
  type Store = map<string, Record>

  /** `get_option(name)`: the stored array, or `None` for PHP's `false`. */
  function GetOption(store: Store, name: string): (r: Option<Record>)
    ensures r.Some? <==> name in store
    ensures r.Some? ==> r.value == store[name]
  {
    if name in store then Some(store[name]) else None
  }

  /** `isset($record[$key])` for an entry that holds a string. */
  function StringAt(record: Record, key: string): (r: Option<string>)
    ensures r.Some? <==> key in record && record[key].Str?
    ensures r.Some? ==> record[key] == Str(r.value)
  {
    if key in record && record[key].Str? then Some(record[key].s) else None
  }

  /** PHP truthiness of a `get_option` result: `false` and the empty array are falsy. */
  predicate Falsy(r: Option<Record>) {
    r.None? || r.value == map[]
  }

  /** `$base.'_'.$code`, the language suffix used for option names and settings groups. */
  function Suffixed(base: string, code: string): (r: string)
    ensures |r| == |base| + 1 + |code|
    ensures r[..|base|] == base && r[|base|] == '_' && r[|base| + 1..] == code
  {
    base + "_" + code
  }

  /** Distinct languages never share a suffixed name, and a suffixed name is never its base. */
  lemma SuffixedInjective(base: string, c1: string, c2: string)
    ensures Suffixed(base, c1) == Suffixed(base, c2) <==> c1 == c2
    ensures Suffixed(base, c1) != base
  {
    if Suffixed(base, c1) == Suffixed(base, c2) {
      assert c1 == Suffixed(base, c1)[|base| + 1..];
    }
    assert |Suffixed(base, c1)| != |base|;
  }
}
