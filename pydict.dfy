/** A Python `dict` with string keys (the only kind the compiler uses): the
    keys in insertion order plus the values they map to. Assigning to an
    existing key keeps its position; `pop` takes the key out. */
module PyDict {
  import opened Wrappers

  /** `s` without any occurrence of `x`, the rest in order. */
  function Remove(s: seq<string>, x: string): (r: seq<string>)
    ensures forall y :: y in r <==> y in s && y != x
    ensures |r| <= |s|
  {
    if s == [] then []
    else (if s[0] == x then [] else [s[0]]) + Remove(s[1..], x)
  }

  ghost predicate Distinct(s: seq<string>) {
    forall i, j :: 0 <= i < j < |s| ==> s[i] != s[j]
  }

  lemma {:induction false} RemoveDistinct(s: seq<string>, x: string)
    requires Distinct(s)
    ensures Distinct(Remove(s, x))
  {
    if s != [] {
      RemoveDistinct(s[1..], x);
      assert s[0] !in s[1..] by {
        forall j | 0 <= j < |s[1..]| ensures s[1..][j] != s[0] {
          assert s[1..][j] == s[j + 1];
        }
      }
      var rest := Remove(s[1..], x);
      var r := (if s[0] == x then [] else [s[0]]) + rest;
      forall i, j | 0 <= i < j < |r| ensures r[i] != r[j] {
        if s[0] != x && i == 0 {
          assert r[j] == rest[j - 1];
        } else if s[0] != x {
          assert r[i] == rest[i - 1] && r[j] == rest[j - 1];
        }
      }
    }
  }

  /** The key order a run of assignments `d[n] = ...`, one per name of
      `names` in turn, leaves behind: a name not yet present goes last. */
  function AppendNew(ks: seq<string>, names: seq<string>): seq<string>
    decreases |names|
  {
    if names == [] then ks
    else
      var before := AppendNew(ks, names[..|names| - 1]);
      var n := names[|names| - 1];
      if n in before then before else before + [n]
  }

  /** One more assignment: the new name goes last unless already present. */
  lemma AppendNewSnoc(ks: seq<string>, names: seq<string>, n: string)
    ensures AppendNew(ks, names + [n])
            == (var b := AppendNew(ks, names); if n in b then b else b + [n])
  {
    assert (names + [n])[..|names|] == names;
  }

  datatype Dict<V> = Dict(keys: seq<string>, entries: map<string, V>) {

    /** The keys are those of the map, each listed once. */
    ghost predicate Valid() {
      && Distinct(keys)
      && (forall k :: k in entries <==> k in keys)
    }

    static function Empty(): (d: Dict<V>)
      ensures d.Valid() && d.Size() == 0
    {
      Dict([], map[])
    }

    function Size(): nat {
      |keys|
    }

    /** `d.get(k)`. */
    function Get(k: string): Option<V> {
      if k in entries then Some(entries[k]) else None
    }

    /** `d[k] = v`: a new key goes last, an existing key keeps its place. */
    function Put(k: string, v: V): (r: Dict<V>)
      requires Valid()
      ensures r.Valid()
      ensures r.Get(k) == Some(v)
      ensures forall k' :: k' != k ==> r.Get(k') == Get(k')
      ensures k in entries ==> r.keys == keys
      ensures k !in entries ==> r.keys == keys + [k]
    {
      if k in entries then Dict(keys, entries[k := v])
      else Dict(keys + [k], entries[k := v])
    }

    /** The key order after `d[k] = v`, from the keys alone. */
    lemma PutKeys(k: string, v: V)
      requires Valid()
      ensures Put(k, v).keys == (if k in keys then keys else keys + [k])
    {
    }

    /** `d.pop(k, None)` as far as the dict is concerned: `k` is gone, the
        other keys keep their order. */
    function Pop(k: string): (r: Dict<V>)
      requires Valid()
      ensures r.Valid()
      ensures r.Get(k) == None
      ensures forall k' :: k' != k ==> r.Get(k') == Get(k')
      ensures r.keys == Remove(keys, k)
    {
      RemoveDistinct(keys, k);
      Dict(Remove(keys, k), entries - {k})
    }

    /** `list(d.values())`. */
    function Values(): (vs: seq<V>)
      requires Valid()
      ensures |vs| == |keys|
      ensures forall i :: 0 <= i < |keys| ==> vs[i] == entries[keys[i]]
    {
      seq(|keys|, i requires 0 <= i < |keys| && Valid() => entries[keys[i]])
    }
  }
}
